# reflect — a verified model of the mirror-channel bot

reflect is a Discord bot that joins many guilds into one "global mirror
channel": each guild designates one of its channels as its mirror, and every
message a human posts in a mirror channel is re-posted, under the author's
display name, in every other mirror channel. The state lives in Redis:

- the set `channels` of every registered mirror channel,
- a hash per guild whose field `mirror_channel` names that guild's channel,
- the sets `banned` (users whose messages are not relayed) and `admins`
  (bot administrators),
- one set `usercache-<display name>` per display name, holding the user ids
  seen under that name.

This project models, in Dafny, the relay pipeline (`Handler::message`), the
mirror administration commands `enable`, `disable` and `notify`, the
moderation commands `ban` and `unban`, the user resolution helper
`resolve_user` with its usercache fallback, and the `Admin` check. It is a
sequential model: the store is a value (`Store.State`, one map of sets and
one map for the per-guild hashes) held by a `Store.Database` object whose
methods are the Redis calls the bot makes. Every Redis or Discord call that
can fail takes a boolean saying whether it fails, so each command is proved
for every combination of failures. Each command is an imperative method on
the database, proved equal to a specification function (`EnableSpec`,
`BanSpec`, ...) about which the properties are proved.

Modules:

- `Common` — `U64`, `Option`, `Result`.
- `Text` — Rust's `u64::from_str`, decimal formatting, `trim_end_matches` and
  `trim_start_matches`.
- `Store` — key names, the store state, SADD/SREM/SISMEMBER/SMEMBERS/SSCAN,
  HGET/HSET/UNLINK.
- `Utils` — `resolve_user` and `usercache_lookup`.
- `Checks` — the `Admin` check.
- `Relay` — `Handler::message`.
- `Utility` — `enable`, `disable`, `notify`, and the registry invariant.
- `Moderation` — `ban`, `unban`.

Details of the code the model keeps:

- The admin marker in a relayed message is ` **(__admin__)**: `.
- Before relaying, the handler also drops messages outside a guild and
  messages whose author's guild membership cannot be fetched. It records the
  author in the usercache before the text is built. It abandons the whole
  message when the channel scan or any attachment download fails.
- `enable` always removes the guild's previous channel from `channels`, even
  when it is the channel being enabled, and then adds the new one back.
- `disable` issues the UNLINK even when the guild has no mirror channel. It
  returns before the UNLINK when editing its status message fails.
- The invariant "`channels` is exactly the set of channels named by guild
  hashes" is not kept atomically. It holds after successful commands on an
  injective registry (`EnableKeepsConsistent`, `DisableKeepsConsistent`).
  `SharedChannelBreaksRegistry`, `FailedHashStrandsMapping` and
  `FailedDisableStrandsMapping` exhibit the ways it breaks.

## Model

| member | source | states |
|---|---|---|
| Text.ParseU64 | src/utils.rs:55-62 | a parsed id starts with a digit or `+`; when it starts with a digit, every character is a digit and the id is the decimal value of the text; a non-empty digit string, leading zeros allowed, is accepted exactly when its value is below 2^64 |
| Text.ParseDecimal | src/utils.rs:55-62 | parsing the decimal text of any 64-bit id gives back that id |
| Text.TrimEnd | src/utils.rs:59 | `trim_end_matches` removes every trailing copy of the character and nothing else: the result is a prefix and does not end with it |
| Text.TrimStart | src/utils.rs:60-61 | `trim_start_matches` removes leading copies of the pattern and nothing else: the removed prefix is a run of copies of the pattern, and the result is a suffix that does not start with it |
| Store.KeyNameInjective | src/event_handler.rs:106-108 | distinct keys (`channels`, `banned`, `admins`, each `usercache-<name>`) have distinct Redis names |
| Store.State.Add | src/event_handler.rs:110 | SADD: the key's set gains the member, other keys and the hashes are unchanged, the store stays free of empty sets |
| Store.State.Remove | src/commands/moderation.rs:156 | SREM: the key's set loses the member, an emptied key disappears, other keys and the hashes are unchanged |
| Store.AddRemoveRoundTrip | src/commands/moderation.rs:90-170 | adding a member that was absent and removing it again restores the store exactly |
| Store.RemoveAbsent | src/commands/moderation.rs:156 | removing a member that is absent changes nothing, an absent key stays absent |
| Store.AddPresent | src/commands/moderation.rs:90 | adding a member already present changes nothing |
| Utils.UsercacheLookup | src/utils.rs:25-44 | a failed SMEMBERS gives "Unable to lookup the provided user!"; otherwise the ids cached under the whole argument text |
| Utils.ResolveUser | src/utils.rs:48-71 | no argument gives "No user was provided!"; an id that parses gives that one id; otherwise a mention that parses gives its id; otherwise the answer is the usercache lookup of the whole argument text, a failed lookup giving "Unable to lookup the provided user!" |
| Utils.ResolveMention | src/utils.rs:57-64 | both mention forms `<@id>` and `<@!id>` resolve to exactly that id |
| Utils.ResolveReadsOnlyUsercache | src/utils.rs:34-38 | resolution depends only on the usercache set of the argument text |
| Checks.AdminCheck | src/commands/checks.rs:32-62 | the check passes exactly when SISMEMBER on `admins` answers yes; a store error fails it silently; a plain "no" says "**Error:** You are not an admin!" |
| Checks.AdminCheckReadsOnlyAdmins | src/commands/checks.rs:44 | the verdict depends only on the `admins` set |
| Relay.RelayStage | src/event_handler.rs:53-159 | the message gets past the filters exactly when it is in a guild, not from a bot, its author's membership resolves, the channel is a mirror and the author is not banned, with no store error; it is relayed exactly when additionally the scan and all downloads succeed |
| Relay.RelayText | src/event_handler.rs:117-135 | the text is the display name, then the admin marker exactly when the admin check answered yes (an error counts as no) or `: ` otherwise, then the sanitised content |
| Relay.WithoutCounts | src/event_handler.rs:161-165 | every scanned channel other than the origin is a destination exactly as often as the scan yields it, the origin never |
| Relay.OriginNeverTargeted | src/event_handler.rs:163-165 | the origin channel never receives its own message |
| Relay.ScanReachesEveryMirror | src/event_handler.rs:138-165 | when the scan covers `channels`, every registered channel other than the origin is a destination |
| Relay.DownloadAll | src/event_handler.rs:146-159 | files are produced exactly when every attachment downloads, and then in order with their file names |
| Relay.Broadcast | src/event_handler.rs:161-173 | one send per scanned channel other than the origin, in scan order, all with the same text and files; a failing send does not stop the rest |
| Relay.OnMessage | src/event_handler.rs:53-174 | stops at the stage `RelayStage` names; the only store change is the usercache SADD, made exactly when the filters pass and the write succeeds; when relayed, the sends are the broadcast of `RelayText` and the downloaded files |
| Utility.ChannelArgument | src/commands/utility.rs:183-214 | no argument selects the invoking channel; a plain id selects that id; otherwise the argument with `>` trimmed from the end and `<#` from the start |
| Utility.ChannelMention | src/commands/utility.rs:188-194 | a channel mention `<#id>` selects that channel |
| Utility.EnableError | src/commands/utility.rs:195-305 | every outcome but success and an unsent status message is reported with an `**Error:**` reply |
| Utility.EnableSpec | src/commands/utility.rs:181-308 | an unparsable argument is refused; otherwise the first failing step (status message, HGET, the SREM of an existing mapping, HSET, SADD) decides the outcome, and with no failure enable succeeds; failures up to the SREM leave the store unchanged; a failed HSET leaves the old channel removed and the hash untouched; a failed SADD leaves the old channel removed and the guild mapped to the new one; success maps the guild to the new channel, replaces its old channel by the new one in `channels` and touches nothing else |
| Utility.Enable | src/commands/utility.rs:181-323 | the method's outcome and final store are those of `EnableSpec` |
| Utility.DisableSpec | src/commands/utility.rs:329-416 | the first failing step (status message, HGET, the SREM of an existing mapping, status edit, UNLINK) decides the outcome, and with no failure disable succeeds; failures up to the SREM leave the store unchanged; success removes the guild's mapping and its channel from `channels` and reports the old channel; without a mapping the store is unchanged and "no mirror channel" is reported; a failed status edit or UNLINK leaves the old channel removed and the mapping in place, and a failed UNLINK reports the old channel; nothing else changes |
| Utility.DisableReplies | src/commands/utility.rs:352-411 | the "no mirror channel" edit appears exactly when the command got past the status edit without a mapping, even if the UNLINK then fails; an error reply comes last exactly for a failed lookup, SREM or UNLINK |
| Utility.Disable | src/commands/utility.rs:329-416 | the method's outcome and final store are those of `DisableSpec` |
| Utility.EnableKeepsConsistent | src/commands/utility.rs:239-308 | a successful enable on a consistent, injective registry leaves `channels` equal to the set of mapped channels |
| Utility.EnableKeepsInjective | src/commands/utility.rs:277-294 | enable keeps the mapping injective when no other guild uses the chosen channel |
| Utility.DisableKeepsConsistent | src/commands/utility.rs:346-413 | a successful disable keeps a consistent, injective registry consistent and injective |
| Utility.EnableThenDisable | src/commands/utility.rs:181-416 | enabling a channel and then disabling reports that channel and leaves the guild unmapped and the channel out of `channels` |
| Utility.SharedChannelBreaksRegistry | src/commands/utility.rs:183-194 | two guilds enabling the same channel, then one disabling, leaves a mapped channel outside `channels` |
| Utility.FailedHashStrandsMapping | src/commands/utility.rs:248-291 | for every registry where the guild is mapped, a failed HSET after the SREM leaves it mapped to its old channel, which is no longer in `channels`, so the registry is inconsistent |
| Utility.FailedDisableStrandsMapping | src/commands/utility.rs:352-413 | for every registry where the guild is mapped, a failed status edit or UNLINK after the SREM leaves it mapped to a channel no longer in `channels` |
| Utility.RecipientsExactly | src/commands/utility.rs:123-149 | a channel is notified exactly when the scan yields it, it is not the invoking one, and its channel and guild lookups succeed; the notice pings its guild's owner |
| Utility.Notify | src/commands/utility.rs:107-175 | no argument sends nothing; a failed scan sends nothing; otherwise one notice per recipient, in order, with the owner ping and the argument text, failed says skipped |
| Utility.NotifyError | src/commands/utility.rs:108-121 | only a missing message is reported, with an `**Error:**` reply; a failed scan is silent |
| Utility.NotifyCommand | src/commands/utility.rs:104-175 | the notice is posted only when the `Admin` check passes, and then exactly as `Notify` posts it; anyone else posts nothing |
| Moderation.Resolve | src/commands/moderation.rs:42-65 | a resolution error is refused with its message, no id gives "no user", several ids give "not implemented", exactly one id resolves to that id; an id argument resolves to that id |
| Moderation.CachedNameResolves | src/utils.rs:65-67 | once the relay has cached a user under a display name nobody else used, and whose first word is neither a 64-bit id nor a user mention, that name resolves to exactly that user |
| Moderation.BanSpec | src/commands/moderation.rs:41-116 | ban succeeds exactly when one user resolves, the admin check answers no and the write succeeds; success adds that user to `banned`; no admin is ever newly banned; every error leaves the store unchanged; nothing else changes; each failure is reported as its own outcome: the resolution refusal, a failed admin check, an admin target, a failed write |
| Moderation.Ban | src/commands/moderation.rs:41-116 | the method's outcome and final store are those of `BanSpec` |
| Moderation.UnbanSpec | src/commands/moderation.rs:122-182 | unban succeeds exactly when one user resolves and the write succeeds; success removes that user from `banned`, admin or not; every error leaves the store unchanged; a resolution refusal and a failed write are each reported as their own outcome |
| Moderation.Unban | src/commands/moderation.rs:122-182 | the method's outcome and final store are those of `UnbanSpec` |
| Moderation.BanReply | src/commands/moderation.rs:107-113 | success names the banned id; every other outcome is an `**Error:**` reply |
| Moderation.UnbanReply | src/commands/moderation.rs:173-179 | success names the unbanned id; every other outcome is an `**Error:**` reply |
| Moderation.BanThenUnban | src/commands/moderation.rs:90-170 | banning a user who was not banned and unbanning them restores the store exactly |
| Moderation.UnbanAbsentIsNoOp | src/commands/moderation.rs:156-170 | unbanning a user who is not banned succeeds and changes nothing |
| Moderation.BanCommand | src/commands/moderation.rs:37-41 | ban runs only when the `Admin` check passes; otherwise the store is unchanged |
| Moderation.UnbanCommand | src/commands/moderation.rs:118-122 | unban runs only when the `Admin` check passes; otherwise the store is unchanged |

## Left out

- Discord calls (member lookup, channel and guild lookups, sends, says,
  status edits, attachment downloads) are not modelled; each is an input
  saying what it answers or whether it fails.
- `content_safe` is not modelled; the sanitised content is an input.
- Redis failures are inputs; a failed call is assumed to change nothing.
  The connection pool and its retries are not modelled.
- SSCAN returns its listing in an unspecified order, possibly with repeats;
  the listing is an input.
- Serenity's argument splitting is not modelled: arguments are a list of
  tokens plus the whole argument text.
- `user` (an embed showing a user's id) is left out: it only formats a reply.
- The embeds `enable` and `disable` send and edit are left out; only whether
  sending or editing fails is modelled. `disable`'s plain-text "no mirror
  channel" edit is modelled by `DisableReplies`. `enable`'s final status
  edit comes after every store change and is not modelled.
- The `say!` confirmation at the end of `notify` is left out; the macro is
  not part of this model.
- `only_in(guilds)` and `required_permissions(ADMINISTRATOR)` are enforced by
  the command framework and are not modelled; the guild id is an input.
- Concurrency between handlers is not modelled: commands run one at a time.
- Start-up, configuration, logging, the help command and the activity status
  are not modelled.
- Utils.ResolveUser: the serenity `parse::<String>()` step that precedes the
  mention trims cannot fail on a non-empty argument list and is not modelled.
- Text.ParseU64: the contract pins down the value only for texts that start
  with a digit; the `+`-prefixed form is computed but not characterised.
- Discord outcomes are keyed by channel (`failingSends`, `failingSays`,
  channel kinds) and by guild (owners), not by position in the scan: a
  channel the scan yields twice fails both times or neither.
