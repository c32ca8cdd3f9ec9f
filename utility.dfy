/** The mirror administration commands: `enable`, `disable` and `notify`. */
module Utility {
  import opened Common
  import opened Text
  import opened Store
  import opened Utils
  import opened Checks

  /** The channel `enable` acts on: the invoking channel when no argument is
      given, a plain id, or a channel mention `<#id>` once every trailing `>`
      and every leading `<#` is trimmed. */
  function ChannelArgument(args: Args, invoking: U64): (r: Option<U64>)
    ensures args.IsEmpty() ==> r == Some(invoking)
    ensures !args.IsEmpty() && ParseU64(args.tokens[0]).Some? ==> r == ParseU64(args.tokens[0])
    ensures !args.IsEmpty() && ParseU64(args.tokens[0]).None? ==>
              r == ParseU64(TrimStart(TrimEnd(args.tokens[0], '>'), "<#"))
  {
    if args.IsEmpty() then Some(invoking)
    else match ParseU64(args.tokens[0])
      case Some(id) => Some(id)
      case None => ParseU64(TrimStart(TrimEnd(args.tokens[0], '>'), "<#"))
  }

  /** A channel mention `<#id>` selects that channel. */
  lemma ChannelMention(n: U64, text: string, invoking: U64)
    ensures ChannelArgument(Args(["<#" + Decimal(n) + ">"], text), invoking) == Some(n)
  {
    var d := Decimal(n);
    assert IsDigit(d[0]) && IsDigit(d[|d| - 1]);
    ParseDecimal(n);
    var token := "<#" + d + ">";
    assert token[0] == '<';
    TrimClosing("<#" + d);
    assert !StartsWith(d, "<#");
    TrimOnce("<#", d);
  }

  // ---------------------------------------------------------------- enable

  /** Which steps of `enable` fail: the initial status message, then the Redis
      calls HGET, SREM, HSET and SADD in that order. */
  datatype EnableFaults = EnableFaults(status: bool, lookup: bool, remove: bool, setHash: bool, addChannel: bool)

  datatype EnableResult =
    | BadArgument | StatusUnsent | LookupFailed | RemoveFailed | HashFailed | AddFailed
    | Enabled(channel: U64)

  const ErrorPrefix := "**Error:** "

  /** The error `enable` says in the invoking channel, if any: every outcome
      but success and an unsent status message is reported as an error. */
  function EnableError(r: EnableResult): (e: Option<string>)
    ensures e.None? <==> r == StatusUnsent || r.Enabled?
    ensures e.Some? ==> StartsWith(e.value, ErrorPrefix)
  {
    var detail :=
      match r
      case BadArgument => "Unable to parse the provided argument to a channel id!"
      case LookupFailed => "Unable to check for an existing mirror channel!"
      case RemoveFailed => "Unable to remove the existing mirror channel from the channels set!"
      case HashFailed => "Unable to update the channel id in the guild hash!"
      case AddFailed => "Unable to update the channel id in the channel set!"
      case _ => "";
    assert (ErrorPrefix + detail)[..|ErrorPrefix|] == ErrorPrefix;
    if r == StatusUnsent || r.Enabled? then None else Some(ErrorPrefix + detail)
  }

  /** The state after the guild's old mirror channel, if any, leaves `channels`. */
  function ClearOld(st: State, guild: U64): (cleared: State)
  {
    if guild in st.mirror then st.Remove(Channels, st.mirror[guild]) else st
  }

  /** `enable` as a function of the store it starts from. It removes the old
      mirror channel from `channels`, points the guild's hash at the new one
      and adds the new one to `channels`, stopping at the first failing step;
      a failed lookup or removal leaves the store as it was. */
  function EnableSpec(st: State, guild: U64, invoking: U64, args: Args, f: EnableFaults): (run: Run<EnableResult>)
    ensures run.result == BadArgument <==> ChannelArgument(args, invoking).None?
    ensures run.result in {BadArgument, StatusUnsent, LookupFailed, RemoveFailed} ==> run.after == st
    ensures run.result.Enabled? ==>
              && run.result.channel == ChannelArgument(args, invoking).value
              && run.after.mirror == st.mirror[guild := run.result.channel]
              && run.after.Members(Channels) ==
                   (if guild in st.mirror then st.Members(Channels) - {st.mirror[guild]} else st.Members(Channels))
                   + {run.result.channel}
    ensures ChannelArgument(args, invoking).Some? ==>
              var removeFails := guild in st.mirror && f.remove;
              && (f.status ==> run.result == StatusUnsent)
              && (!f.status && f.lookup ==> run.result == LookupFailed)
              && (!f.status && !f.lookup && removeFails ==> run.result == RemoveFailed)
              && (!f.status && !f.lookup && !removeFails && f.setHash ==> run.result == HashFailed)
              && (!f.status && !f.lookup && !removeFails && !f.setHash && f.addChannel ==> run.result == AddFailed)
              && (!f.status && !f.lookup && !removeFails && !f.setHash && !f.addChannel ==>
                    run.result == Enabled(ChannelArgument(args, invoking).value))
    ensures run.result == HashFailed ==> run.after == ClearOld(st, guild)
    ensures run.result == AddFailed ==>
              run.after == State(ClearOld(st, guild).sets, st.mirror[guild := ChannelArgument(args, invoking).value])
    ensures forall k :: k != Channels ==> run.after.Members(k) == st.Members(k)
    ensures run.after.mirror - {guild} == st.mirror - {guild}
  {
    match ChannelArgument(args, invoking)
    case None => Run(BadArgument, st)
    case Some(channel) =>
      if f.status then Run(StatusUnsent, st)
      else if f.lookup then Run(LookupFailed, st)
      else if guild in st.mirror && f.remove then Run(RemoveFailed, st)
      else
        var cleared := ClearOld(st, guild);
        if f.setHash then Run(HashFailed, cleared)
        else
          var hashed := State(cleared.sets, cleared.mirror[guild := channel]);
          if f.addChannel then Run(AddFailed, hashed)
          else Run(Enabled(channel), hashed.Add(Channels, channel))
  }

  /** `enable`. */
  method Enable(db: Database, guild: U64, invoking: U64, args: Args, f: EnableFaults)
    returns (result: EnableResult)
    modifies db
    ensures Run(result, db.Snapshot()) == EnableSpec(old(db.Snapshot()), guild, invoking, args, f)
  {
    var channel: U64;
    if args.IsEmpty() {
      channel := invoking;
    } else {
      match ParseU64(args.tokens[0]) {
        case Some(id) =>
          channel := id;
        case None =>
          match ParseU64(TrimStart(TrimEnd(args.tokens[0], '>'), "<#")) {
            case Some(id) =>
              channel := id;
            case None =>
              return BadArgument;
          }
      }
    }

    // the "Enabling" status message; failing to send it ends the command
    if f.status {
      return StatusUnsent;
    }

    var existing := db.MirrorOf(guild, f.lookup);
    if existing.StoreError? {
      return LookupFailed;
    }
    if existing.value.Some? {
      var removed := db.Remove(Channels, existing.value.value, f.remove);
      if removed.StoreError? {
        return RemoveFailed;
      }
    }

    var hashed := db.SetMirror(guild, channel, f.setHash);
    if hashed.StoreError? {
      return HashFailed;
    }

    var added := db.Add(Channels, channel, f.addChannel);
    if added.StoreError? {
      return AddFailed;
    }
    result := Enabled(channel);
  }

  // --------------------------------------------------------------- disable

  /** Which steps of `disable` fail: the initial status message, HGET, SREM,
      the status edit that reports the outcome, and UNLINK. */
  datatype DisableFaults = DisableFaults(status: bool, lookup: bool, remove: bool, edit: bool, unlink: bool)

  datatype DisableResult =
    | Unstarted | CheckFailed | UnregisterFailed | ReportFailed
    | UnlinkFailed(previous: Option<U64>)
    | Disabled(previous: Option<U64>)

  const NoMirrorText := "Your server has no mirror channel to disable"

  /** The plain texts `disable` leaves in the invoking channel, in order: the
      status message edited to say there was no mirror channel, once the
      command gets that far without one, then the error it says, if any. */
  function DisableReplies(r: DisableResult): (texts: seq<string>)
    ensures NoMirrorText in texts <==> (r.UnlinkFailed? || r.Disabled?) && r.previous.None?
    ensures r == CheckFailed || r == UnregisterFailed || r.UnlinkFailed? ==>
              texts != [] && StartsWith(texts[|texts| - 1], ErrorPrefix)
    ensures !(r == CheckFailed || r == UnregisterFailed || r.UnlinkFailed?) ==>
              forall i :: 0 <= i < |texts| ==> !StartsWith(texts[i], ErrorPrefix)
  {
    var status := if (r.UnlinkFailed? || r.Disabled?) && r.previous.None? then [NoMirrorText] else [];
    assert !StartsWith(NoMirrorText, ErrorPrefix) by { assert NoMirrorText[0] != ErrorPrefix[0]; }
    var error :=
      match r
      case CheckFailed => [ErrorPrefix + "Unable to check for an existing mirror channel!"]
      case UnregisterFailed => [ErrorPrefix + "Unable to remove the channel id from the channels set!"]
      case UnlinkFailed(_) => [ErrorPrefix + "Unable to remove the channel id from the guild hash!"]
      case _ => [];
    assert forall e :: e in error ==> StartsWith(e, ErrorPrefix) && e != NoMirrorText;
    status + error
  }

  /** `disable` as a function of the store it starts from: the guild's mirror
      channel leaves `channels`, then the guild's hash is unlinked, whether or
      not there was a mirror channel. A failed removal leaves the mapping in
      place; a failed status edit returns before the unlink. */
  function DisableSpec(st: State, guild: U64, f: DisableFaults): (run: Run<DisableResult>)
    ensures run.result in {Unstarted, CheckFailed, UnregisterFailed} ==> run.after == st
    ensures run.result.Disabled? ==>
              && run.after.mirror == st.mirror - {guild}
              && (guild in st.mirror <==> run.result.previous.Some?)
              && (guild in st.mirror ==>
                    && run.result.previous.value == st.mirror[guild]
                    && run.after.Members(Channels) == st.Members(Channels) - {st.mirror[guild]})
              && (guild !in st.mirror ==> run.after == st)
    ensures run.result.UnlinkFailed? ==>
              (guild in st.mirror <==> run.result.previous.Some?)
              && (guild in st.mirror ==> run.result.previous.value == st.mirror[guild])
    ensures var removeFails := guild in st.mirror && f.remove;
            var previous := if guild in st.mirror then Some(st.mirror[guild]) else None;
            && (f.status ==> run.result == Unstarted)
            && (!f.status && f.lookup ==> run.result == CheckFailed)
            && (!f.status && !f.lookup && removeFails ==> run.result == UnregisterFailed)
            && (!f.status && !f.lookup && !removeFails && f.edit ==> run.result == ReportFailed)
            && (!f.status && !f.lookup && !removeFails && !f.edit ==>
                  run.result == (if f.unlink then UnlinkFailed(previous) else Disabled(previous)))
    ensures run.result == ReportFailed || run.result.UnlinkFailed? ==> run.after == ClearOld(st, guild)
    ensures forall k :: k != Channels ==> run.after.Members(k) == st.Members(k)
    ensures run.after.mirror - {guild} == st.mirror - {guild}
  {
    if f.status then Run(Unstarted, st)
    else if f.lookup then Run(CheckFailed, st)
    else if guild in st.mirror && f.remove then Run(UnregisterFailed, st)
    else
      var cleared := ClearOld(st, guild);
      var previous := if guild in st.mirror then Some(st.mirror[guild]) else None;
      if f.edit then Run(ReportFailed, cleared)
      else if f.unlink then Run(UnlinkFailed(previous), cleared)
      else Run(Disabled(previous), State(cleared.sets, cleared.mirror - {guild}))
  }

  /** `disable`. */
  method Disable(db: Database, guild: U64, f: DisableFaults) returns (result: DisableResult)
    modifies db
    ensures Run(result, db.Snapshot()) == DisableSpec(old(db.Snapshot()), guild, f)
  {
    // the "Disabling" status message; failing to send it ends the command
    if f.status {
      return Unstarted;
    }

    var existing := db.MirrorOf(guild, f.lookup);
    if existing.StoreError? {
      return CheckFailed;
    }
    if existing.value.Some? {
      var removed := db.Remove(Channels, existing.value.value, f.remove);
      if removed.StoreError? {
        return UnregisterFailed;
      }
    }
    // the status edit reporting the outcome; its failure ends the command
    if f.edit {
      return ReportFailed;
    }

    var unlinked := db.Unlink(guild, f.unlink);
    if unlinked.StoreError? {
      return UnlinkFailed(existing.value);
    }
    result := Disabled(existing.value);
  }

  // ----------------------------------------------------- registry invariant

  /** When every step succeeds on a consistent registry whose mapping is
      injective, `enable` keeps `channels` equal to the set of mapped
      channels. */
  lemma EnableKeepsConsistent(st: State, guild: U64, invoking: U64, args: Args, f: EnableFaults)
    requires st.Consistent() && st.Injective()
    requires EnableSpec(st, guild, invoking, args, f).result.Enabled?
    ensures EnableSpec(st, guild, invoking, args, f).after.Consistent()
  {
    var run := EnableSpec(st, guild, invoking, args, f);
    var x := run.result.channel;
    var others := st.mirror - {guild};
    assert run.after.mirror.Values == others.Values + {x} by {
      forall c | c in run.after.mirror.Values ensures c in others.Values + {x} {
        var g :| g in run.after.mirror && run.after.mirror[g] == c;
        if g != guild { assert g in others; }
      }
      forall c | c in others.Values + {x} ensures c in run.after.mirror.Values {
        if c != x {
          var g :| g in others && others[g] == c;
          assert run.after.mirror[g] == c;
        } else {
          assert run.after.mirror[guild] == x;
        }
      }
    }
    if guild in st.mirror {
      var y := st.mirror[guild];
      assert others.Values == st.mirror.Values - {y} by {
        forall c | c in st.mirror.Values - {y} ensures c in others.Values {
          var g :| g in st.mirror && st.mirror[g] == c;
          assert g != guild;
          assert others[g] == c;
        }
        forall c | c in others.Values ensures c in st.mirror.Values - {y} {
          var g :| g in others && others[g] == c;
          assert st.mirror[g] == c;
        }
      }
    } else {
      assert others == st.mirror;
    }
  }

  /** `enable` keeps the mapping injective as long as no other guild already
      uses the chosen channel. */
  lemma EnableKeepsInjective(st: State, guild: U64, invoking: U64, args: Args, f: EnableFaults)
    requires st.Injective()
    requires EnableSpec(st, guild, invoking, args, f).result.Enabled?
    requires forall g :: g in st.mirror && g != guild ==>
               st.mirror[g] != EnableSpec(st, guild, invoking, args, f).result.channel
    ensures EnableSpec(st, guild, invoking, args, f).after.Injective()
  {
  }

  /** When every step succeeds on a consistent, injective registry, `disable`
      keeps it consistent and injective. */
  lemma DisableKeepsConsistent(st: State, guild: U64, f: DisableFaults)
    requires st.Consistent() && st.Injective()
    requires DisableSpec(st, guild, f).result.Disabled?
    ensures DisableSpec(st, guild, f).after.Consistent()
    ensures DisableSpec(st, guild, f).after.Injective()
  {
    var run := DisableSpec(st, guild, f);
    if guild in st.mirror {
      var y := st.mirror[guild];
      assert run.after.mirror.Values == st.mirror.Values - {y} by {
        forall c | c in st.mirror.Values - {y} ensures c in run.after.mirror.Values {
          var g :| g in st.mirror && st.mirror[g] == c;
          assert g != guild;
          assert run.after.mirror[g] == c;
        }
        forall c | c in run.after.mirror.Values ensures c in st.mirror.Values - {y} {
          var g :| g in run.after.mirror && run.after.mirror[g] == c;
          assert st.mirror[g] == c;
        }
      }
    }
  }

  /** Enabling channel X and then disabling leaves the guild without a
      mapping and X out of `channels`. */
  lemma EnableThenDisable(st: State, guild: U64, invoking: U64, args: Args, ef: EnableFaults, df: DisableFaults)
    requires EnableSpec(st, guild, invoking, args, ef).result.Enabled?
    requires !df.status && !df.lookup && !df.remove && !df.edit && !df.unlink
    ensures var enabled := EnableSpec(st, guild, invoking, args, ef);
            var disabled := DisableSpec(enabled.after, guild, df);
            && disabled.result == Disabled(Some(enabled.result.channel))
            && guild !in disabled.after.mirror
            && enabled.result.channel !in disabled.after.Members(Channels)
  {
  }

  lemma SingleMapping(m: map<U64, U64>, g: U64, c: U64)
    requires m == map[g := c]
    ensures m.Values == {c}
  {
    assert m[g] == c;
    forall v | v in m.Values ensures v == c {
      var k :| k in m && m[k] == v;
    }
  }

  /** `enable` does not check who owns a channel: two guilds enabling the same
      channel and one of them disabling leaves a mapping whose channel is not
      in `channels`. */
  lemma SharedChannelBreaksRegistry()
    ensures var start := State(map[Channels := {100}], map[1 := 100]);
            var enabled := EnableSpec(start, 2, 100, Args([], ""), EnableFaults(false, false, false, false, false));
            var disabled := DisableSpec(enabled.after, 2, DisableFaults(false, false, false, false, false));
            && start.Consistent() && start.Injective()
            && enabled.result == Enabled(100)
            && disabled.result == Disabled(Some(100))
            && !disabled.after.Consistent()
  {
    var start := State(map[Channels := {100}], map[1 := 100]);
    SingleMapping(start.mirror, 1, 100);
    var enabled := EnableSpec(start, 2, 100, Args([], ""), EnableFaults(false, false, false, false, false));
    var disabled := DisableSpec(enabled.after, 2, DisableFaults(false, false, false, false, false));
    assert disabled.after.mirror == map[1 := 100];
    assert 100 in disabled.after.mirror.Values;
  }

  /** A failed HSET after the SREM leaves the guild pointing at its old
      channel, which is no longer in `channels`: the registry is
      inconsistent, whatever it held before. */
  lemma FailedHashStrandsMapping(st: State, guild: U64, invoking: U64, args: Args, f: EnableFaults)
    requires guild in st.mirror
    requires EnableSpec(st, guild, invoking, args, f).result == HashFailed
    ensures var after := EnableSpec(st, guild, invoking, args, f).after;
            && after.mirror[guild] == st.mirror[guild]
            && st.mirror[guild] !in after.Members(Channels)
            && !after.Consistent()
  {
    var after := EnableSpec(st, guild, invoking, args, f).after;
    assert after.mirror[guild] in after.mirror.Values;
  }

  /** A failed status edit or UNLINK after `disable`'s SREM leaves the guild
      pointing at a channel that is no longer in `channels`. */
  lemma FailedDisableStrandsMapping(st: State, guild: U64, f: DisableFaults)
    requires guild in st.mirror
    requires DisableSpec(st, guild, f).result == ReportFailed || DisableSpec(st, guild, f).result.UnlinkFailed?
    ensures var after := DisableSpec(st, guild, f).after;
            && after.mirror[guild] == st.mirror[guild]
            && st.mirror[guild] !in after.Members(Channels)
            && !after.Consistent()
  {
    var after := DisableSpec(st, guild, f).after;
    assert after.mirror[guild] in after.mirror.Values;
  }

  // ---------------------------------------------------------------- notify

  /** What looking a scanned channel up yields: an error, a channel outside
      any guild, or a guild channel. */
  datatype ChannelKind = Unresolved | NotInGuild | InGuild(guild: U64)

  /** What Discord answers during `notify`: each channel's kind, each guild's
      owner (absent when the guild lookup fails), and the channels a say to
      fails. */
  datatype Directory = Directory(kinds: map<U64, ChannelKind>, owners: map<U64, U64>, failingSays: set<U64>)
  {
    function KindOf(c: U64): (kind: ChannelKind)
    {
      if c in kinds then kinds[c] else Unresolved
    }
  }

  /** A channel that will be notified, with the owner the notice pings. */
  datatype Recipient = Recipient(channel: U64, owner: U64)

  datatype Post = Post(channel: U64, content: string, delivered: bool)

  datatype NotifyResult = NoMessage | ScanFailed | Sent

  /** What `notify` says in the invoking channel when it stops early: only a
      missing message is reported, a failed scan is only logged. */
  function NotifyError(r: NotifyResult): (e: Option<string>)
    ensures e.Some? <==> r == NoMessage
    ensures e.Some? ==> StartsWith(e.value, ErrorPrefix)
  {
    var text := ErrorPrefix + "No message was provided!";
    assert text[..|ErrorPrefix|] == ErrorPrefix;
    if r == NoMessage then Some(text) else None
  }

  function NoticeText(owner: U64, text: string): (notice: string)
  {
    "**Notification (<@" + Decimal(owner) + ">):** " + text
  }

  /** The scanned channels other than the invoking one whose channel and guild
      lookups both succeed, in scan order. */
  function Recipients(listing: seq<U64>, invoking: U64, dir: Directory): (rs: seq<Recipient>)
  {
    if listing == [] then []
    else
      var c := listing[|listing| - 1];
      var kind := dir.KindOf(c);
      Recipients(listing[..|listing| - 1], invoking, dir)
        + (if c != invoking && kind.InGuild? && kind.guild in dir.owners
           then [Recipient(c, dir.owners[kind.guild])] else [])
  }

  /** A channel is notified exactly when the scan yields it, it is not the
      invoking channel, and both of its lookups succeed; the notice pings the
      owner of its guild. Failed says play no part. */
  lemma {:induction false} RecipientsExactly(listing: seq<U64>, invoking: U64, dir: Directory, r: Recipient)
    ensures r in Recipients(listing, invoking, dir) <==>
              && r.channel in listing
              && r.channel != invoking
              && dir.KindOf(r.channel).InGuild?
              && dir.KindOf(r.channel).guild in dir.owners
              && r.owner == dir.owners[dir.KindOf(r.channel).guild]
  {
    if listing != [] {
      var init := listing[..|listing| - 1];
      RecipientsExactly(init, invoking, dir, r);
      assert listing == init + [listing[|listing| - 1]];
    }
  }

  /** `notify`: the notice goes to every reachable mirror channel but the
      invoking one; a failed lookup or say skips only that channel. */
  method Notify(db: Database, invoking: U64, args: Args, dir: Directory, listing: seq<U64>, scanFails: bool)
    returns (result: NotifyResult, posts: seq<Post>)
    ensures args.IsEmpty() ==> result == NoMessage && posts == []
    ensures !args.IsEmpty() && scanFails ==> result == ScanFailed && posts == []
    ensures !args.IsEmpty() && !scanFails ==>
              && result == Sent
              && |posts| == |Recipients(listing, invoking, dir)|
              && forall i :: 0 <= i < |posts| ==>
                   var r := Recipients(listing, invoking, dir)[i];
                   posts[i] == Post(r.channel, NoticeText(r.owner, args.text), r.channel !in dir.failingSays)
  {
    posts := [];
    if args.IsEmpty() {
      return NoMessage, [];
    }
    var scanned := db.Scan(Channels, listing, scanFails);
    if scanned.StoreError? {
      return ScanFailed, [];
    }
    for i := 0 to |listing|
      invariant |posts| == |Recipients(listing[..i], invoking, dir)|
      invariant forall j :: 0 <= j < |posts| ==>
                  var r := Recipients(listing[..i], invoking, dir)[j];
                  posts[j] == Post(r.channel, NoticeText(r.owner, args.text), r.channel !in dir.failingSays)
    {
      assert listing[..i + 1][..i] == listing[..i];
      var channel := listing[i];
      if channel == invoking {
        continue;
      }
      var kind := dir.KindOf(channel);
      if !kind.InGuild? {
        continue;
      }
      if kind.guild !in dir.owners {
        continue;
      }
      var owner := dir.owners[kind.guild];
      var delivered := channel !in dir.failingSays;
      posts := posts + [Post(channel, NoticeText(owner, args.text), delivered)];
    }
    assert listing[..|listing|] == listing;
    result := Sent;
  }

  /** `notify` as the command framework runs it: the `Admin` check first, the
      command only when it passes. Nobody but an admin can broadcast. */
  method NotifyCommand(db: Database, caller: U64, checkFails: bool, invoking: U64, args: Args, dir: Directory,
                       listing: seq<U64>, scanFails: bool)
    returns (verdict: Verdict, result: Option<NotifyResult>, posts: seq<Post>)
    ensures verdict == AdminCheck(caller, db.Snapshot(), checkFails)
    ensures posts != [] ==> !checkFails && caller in db.Snapshot().Members(Admins)
    ensures !verdict.passed ==> result == None && posts == []
    ensures verdict.passed ==> result.Some?
    ensures verdict.passed && args.IsEmpty() ==> result == Some(NoMessage) && posts == []
    ensures verdict.passed && !args.IsEmpty() && scanFails ==> result == Some(ScanFailed) && posts == []
    ensures verdict.passed && !args.IsEmpty() && !scanFails ==>
              && result == Some(Sent)
              && |posts| == |Recipients(listing, invoking, dir)|
              && forall i :: 0 <= i < |posts| ==>
                   var r := Recipients(listing, invoking, dir)[i];
                   posts[i] == Post(r.channel, NoticeText(r.owner, args.text), r.channel !in dir.failingSays)
  {
    verdict := AdminCheck(caller, db.Snapshot(), checkFails);
    if !verdict.passed {
      return verdict, None, [];
    }
    var r;
    r, posts := Notify(db, invoking, args, dir, listing, scanFails);
    result := Some(r);
  }
}
