/** The few pieces of Rust string handling the bot relies on: `u64::from_str`,
    `trim_end_matches`, `trim_start_matches`, and the decimal rendering used by
    `format!("{}", id)`. */
module Text {
  import opened Common

  predicate IsDigit(c: char) { '0' <= c <= '9' }

  predicate AllDigits(s: string) { forall i :: 0 <= i < |s| ==> IsDigit(s[i]) }

  function DigitChar(d: nat): (c: char)
    requires d < 10
    ensures IsDigit(c)
  {
    ('0' as int + d) as char
  }

  /** The value of a string of ASCII digits, most significant first. */
  function DigitsValue(s: string): (v: nat)
    requires AllDigits(s)
  {
    if s == [] then 0
    else DigitsValue(s[..|s| - 1]) * 10 + (s[|s| - 1] as int - '0' as int)
  }

  /** Digits that fit in a `u64`; anything else is a parse error. */
  function ParseDigits(s: string): (r: Option<U64>)
  {
    if s != [] && AllDigits(s) && DigitsValue(s) < 0x1_0000_0000_0000_0000
    then Some(DigitsValue(s))
    else None
  }

  /** `s.parse::<u64>()`: one optional leading `+`, then at least one ASCII
      digit and nothing else, with a value below 2^64. A `-` is never accepted
      for an unsigned type. */
  function ParseU64(s: string): (r: Option<U64>)
    ensures r.Some? ==> s != [] && (IsDigit(s[0]) || s[0] == '+')
    ensures s != [] && AllDigits(s) ==> (r.Some? <==> DigitsValue(s) < 0x1_0000_0000_0000_0000)
    ensures r.Some? && IsDigit(s[0]) ==> AllDigits(s) && r.value == DigitsValue(s)
  {
    if s == [] then None
    else if s[0] == '+' then ParseDigits(s[1..])
    else ParseDigits(s)
  }

  /** The decimal rendering of a number, as `format!("{}", n)` writes it. */
  function Decimal(n: nat): (s: string)
    ensures s != [] && AllDigits(s)
  {
    if n < 10 then [DigitChar(n)] else Decimal(n / 10) + [DigitChar(n % 10)]
  }

  lemma {:induction false} DecimalValue(n: nat)
    ensures DigitsValue(Decimal(n)) == n
  {
    if n >= 10 {
      DecimalValue(n / 10);
      var s := Decimal(n);
      assert s[..|s| - 1] == Decimal(n / 10);
    }
  }

  /** Printing an id and parsing it back gives the id: mentions and ids the
      bot writes are read back unchanged. */
  lemma ParseDecimal(n: U64)
    ensures ParseU64(Decimal(n)) == Some(n)
  {
    DecimalValue(n);
  }

  /** `s.trim_end_matches(c)`: drops every trailing `c`. */
  function TrimEnd(s: string, c: char): (r: string)
    ensures r <= s
    ensures r == [] || r[|r| - 1] != c
    ensures forall i :: |r| <= i < |s| ==> s[i] == c
  {
    if s != [] && s[|s| - 1] == c then TrimEnd(s[..|s| - 1], c) else s
  }

  predicate StartsWith(s: string, p: string) { |p| <= |s| && s[..|p|] == p }

  /** `t` is zero or more copies of `p`, one after another. */
  predicate Copies(p: string, t: string)
    decreases |t|
  {
    t == [] || (p != [] && StartsWith(t, p) && Copies(p, t[|p|..]))
  }

  /** `s.trim_start_matches(p)`: drops every leading repetition of `p`, and
      nothing else. */
  function TrimStart(s: string, p: string): (r: string)
    requires p != []
    ensures |r| <= |s| && r == s[|s| - |r|..]
    ensures Copies(p, s[..|s| - |r|])
    ensures !StartsWith(r, p)
    decreases |s|
  {
    if StartsWith(s, p) then
      var r := TrimStart(s[|p|..], p);
      var removed := s[..|s| - |r|];
      assert removed[|p|..] == s[|p|..][..|s[|p|..]| - |r|];
      assert StartsWith(removed, p);
      r
    else
      s
  }

  /** Trimming the closing bracket of a mention whose body ends in a digit. */
  lemma TrimClosing(body: string)
    requires body != [] && IsDigit(body[|body| - 1])
    ensures TrimEnd(body + ">", '>') == body
  {
    var s := body + ">";
    assert s[..|s| - 1] == body;
  }

  /** Trimming a prefix that occurs exactly once. */
  lemma TrimOnce(p: string, rest: string)
    requires p != [] && !StartsWith(rest, p)
    ensures TrimStart(p + rest, p) == rest
  {
    var s := p + rest;
    assert s[..|p|] == p;
    assert s[|p|..] == rest;
  }
}
