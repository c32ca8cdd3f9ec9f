/** `resolve_user` and `usercache_lookup`: turning a command's argument into
    the user ids it may name. Both only read the store. */
module Utils {
  import opened Common
  import opened Text
  import opened Store

  /** The arguments the command framework hands a command: the
      space-delimited arguments (`parse` reads the first of them) and the whole
      argument text (`message()`). */
  datatype Args = Args(tokens: seq<string>, text: string)
  {
    predicate IsEmpty() { tokens == [] }
  }

  const NoUserText := "No user was provided!"
  const LookupFailedText := "Unable to lookup the provided user!"

  /** The ids cached under `usercache-<argument text>`: every user seen
      relaying under that display name. */
  function UsercacheLookup(args: Args, st: State, fails: bool): (r: Result<set<U64>>)
    ensures r.Err? <==> fails
    ensures r.Ok? ==> r.value == st.Members(UserCache(args.text))
    ensures r.Err? ==> r.error == LookupFailedText
  {
    if fails then Err(LookupFailedText) else Ok(st.Members(UserCache(args.text)))
  }

  /** The id in a user mention `<@id>` or `<@!id>`: all trailing `>`, then all
      leading `<@`, then all leading `!` are trimmed and the rest is parsed. */
  function MentionId(token: string): (id: Option<U64>)
  {
    ParseU64(TrimStart(TrimStart(TrimEnd(token, '>'), "<@"), "!"))
  }

  /** The ids an argument names: a plain id, a mention, or else every id the
      usercache holds for the argument text (none, one or many). */
  function ResolveUser(args: Args, st: State, lookupFails: bool): (r: Result<set<U64>>)
    ensures args.IsEmpty() ==> r == Err(NoUserText)
    ensures !args.IsEmpty() && ParseU64(args.tokens[0]).Some? ==>
              r == Ok({ParseU64(args.tokens[0]).value})
    ensures !args.IsEmpty() && ParseU64(args.tokens[0]).None? && MentionId(args.tokens[0]).Some? ==>
              r == Ok({MentionId(args.tokens[0]).value})
    ensures !args.IsEmpty() && ParseU64(args.tokens[0]).None? && MentionId(args.tokens[0]).None? ==>
              r == UsercacheLookup(args, st, lookupFails)
    ensures r.Ok? && |r.value| != 1 ==> r.value == st.Members(UserCache(args.text))
    ensures r.Err? ==> r.error == NoUserText || (lookupFails && r.error == LookupFailedText)
  {
    if args.IsEmpty() then Err(NoUserText)
    else
      var plain, mention := ParseU64(args.tokens[0]), MentionId(args.tokens[0]);
      if plain.Some? then
        assert |{plain.value}| == 1;
        Ok({plain.value})
      else if mention.Some? then
        assert |{mention.value}| == 1;
        Ok({mention.value})
      else
        UsercacheLookup(args, st, lookupFails)
  }

  /** Trimming `<@digits>` leaves the digits. */
  lemma PlainMentionTrim(d: string)
    requires d != [] && IsDigit(d[0]) && IsDigit(d[|d| - 1])
    ensures TrimStart(TrimStart(TrimEnd("<@" + d + ">", '>'), "<@"), "!") == d
  {
    TrimClosing("<@" + d);
    assert !StartsWith(d, "<@") && !StartsWith(d, "!");
    TrimOnce("<@", d);
    assert TrimStart(d, "!") == d;
  }

  /** Trimming `<@!digits>` (the nickname form) leaves the digits. */
  lemma NickMentionTrim(d: string)
    requires d != [] && IsDigit(d[0]) && IsDigit(d[|d| - 1])
    ensures TrimStart(TrimStart(TrimEnd("<@!" + d + ">", '>'), "<@"), "!") == d
  {
    TrimClosing("<@!" + d);
    assert "<@!" + d == "<@" + ("!" + d);
    TrimOnce("<@", "!" + d);
    TrimOnce("!", d);
  }

  /** A mention, which starts with `<`, never parses as a plain id. */
  lemma MentionIsNotAnId(token: string)
    requires token != [] && token[0] == '<'
    ensures ParseU64(token) == None
  {
  }

  /** `<@id>` names the id it mentions. */
  lemma PlainMention(n: U64)
    ensures MentionId("<@" + Decimal(n) + ">") == Some(n)
  {
    var d := Decimal(n);
    assert IsDigit(d[0]) && IsDigit(d[|d| - 1]);
    ParseDecimal(n);
    PlainMentionTrim(d);
  }

  /** `<@!id>` names the id it mentions. */
  lemma NickMention(n: U64)
    ensures MentionId("<@!" + Decimal(n) + ">") == Some(n)
  {
    var d := Decimal(n);
    assert IsDigit(d[0]) && IsDigit(d[|d| - 1]);
    ParseDecimal(n);
    NickMentionTrim(d);
  }

  /** `<@id>` and `<@!id>` both resolve to exactly the mentioned id, whatever
      the usercache holds and whether or not it can be read. */
  lemma ResolveMention(n: U64, nick: bool, text: string, st: State, lookupFails: bool)
    ensures var token := if nick then "<@!" + Decimal(n) + ">" else "<@" + Decimal(n) + ">";
            ResolveUser(Args([token], text), st, lookupFails) == Ok({n})
  {
    var token := if nick then "<@!" + Decimal(n) + ">" else "<@" + Decimal(n) + ">";
    MentionIsNotAnId(token);
    if nick { NickMention(n); } else { PlainMention(n); }
  }

  /** Resolution reads nothing but the usercache entry for the argument text. */
  lemma ResolveReadsOnlyUsercache(args: Args, st1: State, st2: State, lookupFails: bool)
    requires st1.Members(UserCache(args.text)) == st2.Members(UserCache(args.text))
    ensures ResolveUser(args, st1, lookupFails) == ResolveUser(args, st2, lookupFails)
  {
  }

  /** The one member of a singleton set. */
  function TheOnly(s: set<U64>): (x: U64)
    requires |s| == 1
    ensures s == {x}
  {
    var x :| x in s;
    assert |s - {x}| == 0;
    x
  }
}
