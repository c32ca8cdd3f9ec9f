/** Values shared by every part of the model: optional values, results, and
    the 64-bit unsigned ids Discord uses for users, channels and guilds. */
module Common {

  /** An unsigned 64-bit id (`u64` in the bot). */
  type U64 = x: int | 0 <= x < 0x1_0000_0000_0000_0000

  datatype Option<+T> = None | Some(value: T)

  /** `Result<T, &'static str>` as the bot's helpers return it. */
  datatype Result<+T> = Ok(value: T) | Err(error: string)
}
