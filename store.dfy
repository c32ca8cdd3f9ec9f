/** The Redis key space the bot uses, and the handful of Redis commands it
    issues against it. Every command can fail (the connection or the server
    errors); a failed command changes nothing. */
module Store {
  import opened Common

  /** The set-typed keys: `channels`, `banned`, `admins` and
      `usercache-<display name>`. */
  datatype SetKey = Channels | Banned | Admins | UserCache(name: string)

  /** The Redis key string each set lives under. */
  function KeyName(k: SetKey): (name: string)
  {
    match k
    case Channels => "channels"
    case Banned => "banned"
    case Admins => "admins"
    case UserCache(name) => "usercache-" + name
  }

  /** Distinct sets never share a Redis key. */
  lemma KeyNameInjective(k1: SetKey, k2: SetKey)
    ensures KeyName(k1) == KeyName(k2) ==> k1 == k2
  {
    if KeyName(k1) == KeyName(k2) && k1.UserCache? && k2.UserCache? {
      assert k1.name == KeyName(k1)[10..] == KeyName(k2)[10..] == k2.name;
    }
  }

  /** The answer of one Redis command: a value, or a store error. */
  datatype Reply<+T> = Value(value: T) | StoreError

  /** A snapshot of everything the bot keeps in Redis: the set-typed keys and,
      per guild, the `mirror_channel` field of the guild's hash. */
  datatype State = State(sets: map<SetKey, set<U64>>, mirror: map<U64, U64>)
  {
    /** SMEMBERS: an absent key reads as the empty set. */
    function Members(k: SetKey): (members: set<U64>)
    {
      if k in sets then sets[k] else {}
    }

    /** Redis never stores an empty set: removing the last member deletes the key. */
    predicate Valid()
    {
      forall k :: k in sets ==> sets[k] != {}
    }

    /** The state after SADD k m. */
    function Add(k: SetKey, m: U64): (st: State)
      ensures st.Members(k) == Members(k) + {m}
      ensures forall j :: j != k ==> st.Members(j) == Members(j)
      ensures st.mirror == mirror
      ensures Valid() ==> st.Valid()
    {
      State(sets[k := Members(k) + {m}], mirror)
    }

    /** The state after SREM k m. */
    function Remove(k: SetKey, m: U64): (st: State)
      ensures st.Members(k) == Members(k) - {m}
      ensures forall j :: j != k ==> st.Members(j) == Members(j)
      ensures st.mirror == mirror
      ensures Valid() ==> st.Valid()
    {
      var rest := Members(k) - {m};
      if rest == {} then State(sets - {k}, mirror) else State(sets[k := rest], mirror)
    }

    /** Every channel in `channels` is some guild's mirror channel, and every
        guild's mirror channel is in `channels`. */
    predicate Consistent()
    {
      Members(Channels) == mirror.Values
    }

    /** No two guilds share a mirror channel. */
    predicate Injective()
    {
      forall g1, g2 :: g1 in mirror && g2 in mirror && mirror[g1] == mirror[g2] ==> g1 == g2
    }
  }

  /** Adding a member that is not there and removing it again restores the
      key space exactly, including whether the key exists. */
  lemma {:induction false} AddRemoveRoundTrip(st: State, k: SetKey, m: U64)
    requires st.Valid() && m !in st.Members(k)
    ensures st.Add(k, m).Remove(k, m) == st
  {
    var after := st.Add(k, m).Remove(k, m);
    if st.Members(k) == {} {
      assert k !in st.sets;
      assert after.sets == st.sets;
    } else {
      assert st.Members(k) + {m} - {m} == st.Members(k);
      assert after.sets == st.sets;
    }
  }

  /** Adding a member that is already there changes nothing. */
  lemma AddPresent(st: State, k: SetKey, m: U64)
    ensures m in st.Members(k) ==> st.Add(k, m) == st
  {
    if m in st.Members(k) {
      assert k in st.sets && st.Members(k) + {m} == st.sets[k];
      assert st.Add(k, m).sets == st.sets;
    }
  }

  /** Removing a member that is not there changes nothing: an absent key
      stays absent. */
  lemma {:induction false} RemoveAbsent(st: State, k: SetKey, m: U64)
    requires st.Valid() && m !in st.Members(k)
    ensures st.Remove(k, m) == st
  {
    if st.Members(k) == {} {
      assert k !in st.sets;
      assert st.sets - {k} == st.sets;
    } else {
      assert st.Members(k) - {m} == st.Members(k);
      assert st.sets[k := st.Members(k)] == st.sets;
    }
  }

  /** A command's effect: what it reports and the store it leaves behind. */
  datatype Run<R> = Run(result: R, after: State)

  /** The connection handle the commands hold. */
  class Database {
    var sets: map<SetKey, set<U64>>
    var mirror: map<U64, U64>

    function Snapshot(): (st: State)
      reads this
    {
      State(sets, mirror)
    }

    constructor (st: State)
      ensures Snapshot() == st
    {
      sets := st.sets;
      mirror := st.mirror;
    }

    /** SISMEMBER k m */
    method IsMember(k: SetKey, m: U64, fails: bool) returns (r: Reply<bool>)
      ensures r == if fails then StoreError else Value(m in Snapshot().Members(k))
    {
      if fails { return StoreError; }
      r := Value(m in (if k in sets then sets[k] else {}));
    }

    /** SMEMBERS k */
    method Members(k: SetKey, fails: bool) returns (r: Reply<set<U64>>)
      ensures r == if fails then StoreError else Value(Snapshot().Members(k))
    {
      if fails { return StoreError; }
      r := Value(if k in sets then sets[k] else {});
    }

    /** SSCAN k: the cursor walk yields the members in an order the server
        chooses and may yield a member more than once, so the listing is an
        arbitrary sequence supplied by the caller. */
    method Scan(k: SetKey, listing: seq<U64>, fails: bool) returns (r: Reply<seq<U64>>)
      ensures r == if fails then StoreError else Value(listing)
    {
      if fails { return StoreError; }
      r := Value(listing);
    }

    /** SADD k m */
    method Add(k: SetKey, m: U64, fails: bool) returns (r: Reply<()>)
      modifies this
      ensures r == if fails then StoreError else Value(())
      ensures Snapshot() == if fails then old(Snapshot()) else old(Snapshot()).Add(k, m)
    {
      if fails { return StoreError; }
      sets := sets[k := (if k in sets then sets[k] else {}) + {m}];
      r := Value(());
    }

    /** SREM k m */
    method Remove(k: SetKey, m: U64, fails: bool) returns (r: Reply<()>)
      modifies this
      ensures r == if fails then StoreError else Value(())
      ensures Snapshot() == if fails then old(Snapshot()) else old(Snapshot()).Remove(k, m)
    {
      if fails { return StoreError; }
      var rest := (if k in sets then sets[k] else {}) - {m};
      if rest == {} { sets := sets - {k}; } else { sets := sets[k := rest]; }
      r := Value(());
    }

    /** HGET <guild> mirror_channel */
    method MirrorOf(guild: U64, fails: bool) returns (r: Reply<Option<U64>>)
      ensures r == if fails then StoreError
                   else if guild in Snapshot().mirror then Value(Some(Snapshot().mirror[guild]))
                   else Value(None)
    {
      if fails { return StoreError; }
      r := if guild in mirror then Value(Some(mirror[guild])) else Value(None);
    }

    /** HSET <guild> mirror_channel <channel> */
    method SetMirror(guild: U64, channel: U64, fails: bool) returns (r: Reply<()>)
      modifies this
      ensures r == if fails then StoreError else Value(())
      ensures Snapshot() == if fails then old(Snapshot())
                            else State(old(sets), old(mirror)[guild := channel])
    {
      if fails { return StoreError; }
      mirror := mirror[guild := channel];
      r := Value(());
    }

    /** UNLINK <guild>: drops the guild's whole hash. */
    method Unlink(guild: U64, fails: bool) returns (r: Reply<()>)
      modifies this
      ensures r == if fails then StoreError else Value(())
      ensures Snapshot() == if fails then old(Snapshot())
                            else State(old(sets), old(mirror) - {guild})
    {
      if fails { return StoreError; }
      mirror := mirror - {guild};
      r := Value(());
    }
  }
}
