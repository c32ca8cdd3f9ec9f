/** The moderation commands `ban` and `unban`, both behind the `Admin` check. */
module Moderation {
  import opened Common
  import opened Text
  import opened Store
  import opened Utils
  import opened Checks

  /** Which Redis calls fail: the usercache lookup (when the argument is
      neither an id nor a mention), the SISMEMBER on `admins` (ban only), and
      the write to `banned`. */
  datatype ModFaults = ModFaults(lookup: bool, adminCheck: bool, write: bool)

  datatype ModResult =
    | Unresolved(error: string) | Ambiguous | NoSuchUser
    | TargetIsAdmin | AdminCheckFailed | WriteFailed
    | Done(id: U64)

  /** The user a moderation command acts on, or why there is none. */
  datatype Resolution = Resolved(id: U64) | Refused(result: ModResult)

  /** `resolve_user`, then the demand for exactly one id. */
  function Resolve(args: Args, st: State, lookupFails: bool): (r: Resolution)
    ensures r.Refused? ==> !r.result.Done? && !r.result.TargetIsAdmin? && !r.result.AdminCheckFailed?
                           && !r.result.WriteFailed?
    ensures args.IsEmpty() ==> r == Refused(Unresolved(NoUserText))
    ensures !args.IsEmpty() && ParseU64(args.tokens[0]).Some? ==> r == Resolved(ParseU64(args.tokens[0]).value)
    ensures r.Refused? && r.result == NoSuchUser ==> st.Members(UserCache(args.text)) == {}
    ensures r.Refused? && r.result == Ambiguous ==> |st.Members(UserCache(args.text))| > 1
    ensures ResolveUser(args, st, lookupFails).Err? ==>
              r == Refused(Unresolved(ResolveUser(args, st, lookupFails).error))
    ensures ResolveUser(args, st, lookupFails).Ok? && |ResolveUser(args, st, lookupFails).value| == 0 ==>
              r == Refused(NoSuchUser)
    ensures ResolveUser(args, st, lookupFails).Ok? && |ResolveUser(args, st, lookupFails).value| > 1 ==>
              r == Refused(Ambiguous)
    ensures ResolveUser(args, st, lookupFails).Ok? && |ResolveUser(args, st, lookupFails).value| == 1 ==>
              r.Resolved? && {r.id} == ResolveUser(args, st, lookupFails).value
  {
    match ResolveUser(args, st, lookupFails)
    case Err(e) => Refused(Unresolved(e))
    case Ok(ids) =>
      if |ids| > 1 then Refused(Ambiguous)
      else if |ids| == 0 then Refused(NoSuchUser)
      else Resolved(TheOnly(ids))
  }

  /** A display name that only one user has relayed under resolves to that
      user once the relay has cached them, whether or not they were cached
      before. */
  lemma CachedNameResolves(st: State, args: Args, author: U64)
    requires !args.IsEmpty() && ParseU64(args.tokens[0]).None? && MentionId(args.tokens[0]).None?
    requires st.Members(UserCache(args.text)) <= {author}
    ensures Resolve(args, st.Add(UserCache(args.text), author), false) == Resolved(author)
  {
    var after := st.Add(UserCache(args.text), author);
    assert after.Members(UserCache(args.text)) == {author};
    assert ResolveUser(args, after, false) == Ok({author});
  }

  /** `ban` as a function of the store: an admin is refused, anyone else is
      added to `banned`; every error leaves the store as it was. */
  function BanSpec(st: State, args: Args, f: ModFaults): (run: Run<ModResult>)
    ensures run.result.Done? <==>
              && Resolve(args, st, f.lookup).Resolved?
              && !f.adminCheck
              && Resolve(args, st, f.lookup).id !in st.Members(Admins)
              && !f.write
    ensures run.result.Done? ==>
              && run.result.id == Resolve(args, st, f.lookup).id
              && run.after.Members(Banned) == st.Members(Banned) + {run.result.id}
    ensures run.result.Done? && run.result.id in st.Members(Banned) ==> run.after == st
    ensures !run.result.Done? ==> run.after == st
    ensures Resolve(args, st, f.lookup).Refused? ==> run.result == Resolve(args, st, f.lookup).result
    ensures Resolve(args, st, f.lookup).Resolved? && f.adminCheck ==> run.result == AdminCheckFailed
    ensures (Resolve(args, st, f.lookup).Resolved? && !f.adminCheck
             && Resolve(args, st, f.lookup).id in st.Members(Admins)) ==> run.result == TargetIsAdmin
    ensures (Resolve(args, st, f.lookup).Resolved? && !f.adminCheck
             && Resolve(args, st, f.lookup).id !in st.Members(Admins) && f.write) ==> run.result == WriteFailed
    ensures forall u :: u in run.after.Members(Banned) && u !in st.Members(Banned) ==> u !in st.Members(Admins)
    ensures forall k :: k != Banned ==> run.after.Members(k) == st.Members(k)
    ensures run.after.mirror == st.mirror
  {
    match Resolve(args, st, f.lookup)
    case Refused(why) => Run(why, st)
    case Resolved(id) =>
      if f.adminCheck then Run(AdminCheckFailed, st)
      else if id in st.Members(Admins) then Run(TargetIsAdmin, st)
      else if f.write then Run(WriteFailed, st)
      else
        AddPresent(st, Banned, id);
        Run(Done(id), st.Add(Banned, id))
  }

  /** `unban` as a function of the store: the user leaves `banned`, admin or
      not, banned or not; every error leaves the store as it was. */
  function UnbanSpec(st: State, args: Args, f: ModFaults): (run: Run<ModResult>)
    ensures run.result.Done? <==> Resolve(args, st, f.lookup).Resolved? && !f.write
    ensures run.result.Done? ==>
              && run.result.id == Resolve(args, st, f.lookup).id
              && run.after.Members(Banned) == st.Members(Banned) - {run.result.id}
    ensures !run.result.Done? ==> run.after == st
    ensures !run.result.TargetIsAdmin? && !run.result.AdminCheckFailed?
    ensures Resolve(args, st, f.lookup).Refused? ==> run.result == Resolve(args, st, f.lookup).result
    ensures Resolve(args, st, f.lookup).Resolved? && f.write ==> run.result == WriteFailed
    ensures forall k :: k != Banned ==> run.after.Members(k) == st.Members(k)
    ensures run.after.mirror == st.mirror
  {
    match Resolve(args, st, f.lookup)
    case Refused(why) => Run(why, st)
    case Resolved(id) =>
      if f.write then Run(WriteFailed, st)
      else Run(Done(id), st.Remove(Banned, id))
  }

  /** `ban`. */
  method Ban(db: Database, args: Args, f: ModFaults) returns (result: ModResult)
    modifies db
    ensures Run(result, db.Snapshot()) == BanSpec(old(db.Snapshot()), args, f)
  {
    var resolved := ResolveUser(args, db.Snapshot(), f.lookup);
    if resolved.Err? {
      return Unresolved(resolved.error);
    }
    var ids := resolved.value;
    if |ids| > 1 {
      return Ambiguous;
    } else if |ids| == 0 {
      return NoSuchUser;
    }
    var id := TheOnly(ids);

    var admin := db.IsMember(Admins, id, f.adminCheck);
    if admin.StoreError? {
      return AdminCheckFailed;
    }
    if admin.value {
      return TargetIsAdmin;
    }

    var added := db.Add(Banned, id, f.write);
    if added.StoreError? {
      return WriteFailed;
    }
    result := Done(id);
  }

  /** `unban`. */
  method Unban(db: Database, args: Args, f: ModFaults) returns (result: ModResult)
    modifies db
    ensures Run(result, db.Snapshot()) == UnbanSpec(old(db.Snapshot()), args, f)
  {
    var resolved := ResolveUser(args, db.Snapshot(), f.lookup);
    if resolved.Err? {
      return Unresolved(resolved.error);
    }
    var ids := resolved.value;
    if |ids| > 1 {
      return Ambiguous;
    } else if |ids| == 0 {
      return NoSuchUser;
    }
    var id := TheOnly(ids);

    var removed := db.Remove(Banned, id, f.write);
    if removed.StoreError? {
      return WriteFailed;
    }
    result := Done(id);
  }

  /** What `ban` says in the invoking channel. */
  function BanReply(r: ModResult): (text: string)
    ensures r.Done? ==> StartsWith(text, "Successfully banned `" + Decimal(r.id) + "`")
    ensures !r.Done? ==> StartsWith(text, "**Error:** ")
  {
    var error := "**Error:** ";
    match r
    case Done(id) =>
      var head := "Successfully banned `" + Decimal(id) + "`";
      assert (head + " from the global mirror channel!")[..|head|] == head;
      head + " from the global mirror channel!"
    case Unresolved(e) => error + e
    case Ambiguous => error + "Usercache listing is not implemented yet!"
    case NoSuchUser => error + "No user could be found!"
    case TargetIsAdmin => error + "You cannot ban an admin!"
    case AdminCheckFailed => error + "Unable to check if the user is an admin!"
    case WriteFailed => error + "Unable to add the user to the banned users' list!"
  }

  /** What `unban` says in the invoking channel. */
  function UnbanReply(r: ModResult): (text: string)
    ensures r.Done? ==> StartsWith(text, "Successfully unbanned `" + Decimal(r.id) + "`")
    ensures !r.Done? ==> StartsWith(text, "**Error:** ")
  {
    var error := "**Error:** ";
    match r
    case Done(id) =>
      var head := "Successfully unbanned `" + Decimal(id) + "`";
      assert (head + " from the global mirror channel!")[..|head|] == head;
      head + " from the global mirror channel!"
    case Unresolved(e) => error + e
    case Ambiguous => error + "Usercache listing is not implemented yet!"
    case NoSuchUser => error + "No user could be found!"
    case WriteFailed => error + "Unable to remove the user from the banned users' list!"
    case _ => error
  }

  /** Banning a user who was not banned and unbanning them again restores
      the store exactly. */
  lemma BanThenUnban(st: State, args: Args)
    requires st.Valid()
    requires BanSpec(st, args, ModFaults(false, false, false)).result.Done?
    requires BanSpec(st, args, ModFaults(false, false, false)).result.id !in st.Members(Banned)
    ensures var banned := BanSpec(st, args, ModFaults(false, false, false));
            var unbanned := UnbanSpec(banned.after, args, ModFaults(false, false, false));
            unbanned.result == banned.result && unbanned.after == st
  {
    var banned := BanSpec(st, args, ModFaults(false, false, false));
    var id := banned.result.id;
    ResolveReadsOnlyUsercache(args, st, banned.after, false);
    assert banned.after == st.Add(Banned, id);
    AddRemoveRoundTrip(st, Banned, id);
  }

  /** Unbanning a user who is not banned changes nothing. */
  lemma UnbanAbsentIsNoOp(st: State, args: Args, f: ModFaults)
    requires st.Valid() && !f.write
    requires Resolve(args, st, f.lookup).Resolved?
    requires Resolve(args, st, f.lookup).id !in st.Members(Banned)
    ensures UnbanSpec(st, args, f) == Run(Done(Resolve(args, st, f.lookup).id), st)
  {
    var id := Resolve(args, st, f.lookup).id;
    assert UnbanSpec(st, args, f).after == st.Remove(Banned, id);
    RemoveAbsent(st, Banned, id);
  }

  /** `ban` as the command framework runs it: the `Admin` check first, the
      command only when it passes. */
  method BanCommand(db: Database, caller: U64, args: Args, checkFails: bool, f: ModFaults)
    returns (verdict: Verdict, result: Option<ModResult>)
    modifies db
    ensures verdict == AdminCheck(caller, old(db.Snapshot()), checkFails)
    ensures !verdict.passed ==> result == None && db.Snapshot() == old(db.Snapshot())
    ensures verdict.passed ==>
              && result.Some?
              && Run(result.value, db.Snapshot()) == BanSpec(old(db.Snapshot()), args, f)
  {
    verdict := AdminCheck(caller, db.Snapshot(), checkFails);
    if !verdict.passed {
      return verdict, None;
    }
    var r := Ban(db, args, f);
    result := Some(r);
  }

  /** `unban` as the command framework runs it. */
  method UnbanCommand(db: Database, caller: U64, args: Args, checkFails: bool, f: ModFaults)
    returns (verdict: Verdict, result: Option<ModResult>)
    modifies db
    ensures verdict == AdminCheck(caller, old(db.Snapshot()), checkFails)
    ensures !verdict.passed ==> result == None && db.Snapshot() == old(db.Snapshot())
    ensures verdict.passed ==>
              && result.Some?
              && Run(result.value, db.Snapshot()) == UnbanSpec(old(db.Snapshot()), args, f)
  {
    verdict := AdminCheck(caller, db.Snapshot(), checkFails);
    if !verdict.passed {
      return verdict, None;
    }
    var r := Unban(db, args, f);
    result := Some(r);
  }
}
