/** The relay: `Handler::message`, run for every message the bot sees. It
    filters the message, records its author in the usercache, builds the
    relayed text, downloads the attachments and sends the result to every
    mirror channel but the one it came from. */
module Relay {
  import opened Common
  import opened Store

  type Bytes = seq<bv8>

  /** An attachment of the incoming message, with the outcome its download
      will have. */
  datatype Attachment = Attachment(filename: string, download: Option<Bytes>)

  /** A downloaded attachment as it is forwarded. */
  datatype File = File(filename: string, data: Bytes)

  datatype Message = Message(
    guild: Option<U64>,
    author: U64,
    authorIsBot: bool,
    channel: U64,
    attachments: seq<Attachment>)

  /** What Discord answers while the message is handled: the author's display
      name in the guild (None when the member lookup fails), the
      mention-sanitised content, and the destinations a send to fails. */
  datatype Discord = Discord(displayName: Option<string>, safeContent: string, failingSends: set<U64>)

  /** Which Redis calls fail, and the channel ids the SSCAN of `channels`
      yields when it does not. */
  datatype StoreFaults = StoreFaults(
    mirrorCheck: bool,
    banCheck: bool,
    cacheAdd: bool,
    adminCheck: bool,
    scan: bool,
    listing: seq<U64>)

  /** One send attempt and whether Discord accepted it. */
  datatype Send = Send(channel: U64, content: string, files: seq<File>, delivered: bool)

  /** Where the pipeline stopped. */
  datatype Stage =
    | NoGuild | FromBot | MemberUnavailable
    | MirrorCheckFailed | NotMirror
    | BanCheckFailed | AuthorBanned
    | ScanFailed | DownloadFailed | Relayed

  const AdminSeparator := " **(__admin__)**: "
  const Separator := ": "

  /** Every filter answered, and answered "relay": a guild message from a
      human member, in a mirror channel, by someone not banned. */
  predicate FiltersPass(st: State, msg: Message, discord: Discord, faults: StoreFaults)
  {
    && msg.guild.Some?
    && !msg.authorIsBot
    && discord.displayName.Some?
    && !faults.mirrorCheck && msg.channel in st.Members(Channels)
    && !faults.banCheck && msg.author !in st.Members(Banned)
  }

  predicate Downloaded(atts: seq<Attachment>)
  {
    forall i :: 0 <= i < |atts| ==> atts[i].download.Some?
  }

  /** `files` are the downloads of `atts`, in order, under their own names. */
  predicate IsDownloadOf(files: seq<File>, atts: seq<Attachment>)
  {
    && |files| == |atts|
    && forall i :: 0 <= i < |atts| ==>
         files[i].filename == atts[i].filename && atts[i].download == Some(files[i].data)
  }

  /** The stages reached after the ban filter, where the usercache is written. */
  predicate PastFilters(s: Stage)
  {
    s == ScanFailed || s == DownloadFailed || s == Relayed
  }

  /** Where the pipeline stops. Every filter fails closed: a store error
      stops the message just as a "no" does. */
  function RelayStage(st: State, msg: Message, discord: Discord, faults: StoreFaults): (s: Stage)
    ensures msg.guild.None? ==> s == NoGuild
    ensures msg.guild.Some? && msg.authorIsBot ==> s == FromBot
    ensures PastFilters(s) <==> FiltersPass(st, msg, discord, faults)
    ensures s == Relayed <==>
              FiltersPass(st, msg, discord, faults) && !faults.scan && Downloaded(msg.attachments)
  {
    if msg.guild.None? then NoGuild
    else if msg.authorIsBot then FromBot
    else if discord.displayName.None? then MemberUnavailable
    else if faults.mirrorCheck then MirrorCheckFailed
    else if msg.channel !in st.Members(Channels) then NotMirror
    else if faults.banCheck then BanCheckFailed
    else if msg.author in st.Members(Banned) then AuthorBanned
    else if faults.scan then ScanFailed
    else if !Downloaded(msg.attachments) then DownloadFailed
    else Relayed
  }

  /** The SISMEMBER on `admins` made while the text is built. */
  function AdminAnswer(st: State, author: U64, fails: bool): (answer: Reply<bool>)
  {
    if fails then StoreError else Value(author in st.Members(Admins))
  }

  predicate HasAdminMarker(text: string, name: string)
  {
    |name| + |AdminSeparator| <= |text| && text[|name|..|name| + |AdminSeparator|] == AdminSeparator
  }

  /** The relayed text: the display name, the admin marker exactly when the
      admin check answered yes (an error counts as no), then the content. */
  function RelayText(name: string, admin: Reply<bool>, safe: string): (text: string)
    ensures |name| <= |text| && text[..|name|] == name
    ensures HasAdminMarker(text, name) <==> admin == Value(true)
    ensures admin != Value(true) ==> |name| + 2 <= |text| && text[|name|..|name| + 2] == Separator
    ensures |text| == |name| + (if admin == Value(true) then |AdminSeparator| else |Separator|) + |safe|
    ensures text[|text| - |safe|..] == safe
  {
    var text := name + (if admin == Value(true) then AdminSeparator else Separator) + safe;
    assert text[..|name|] == name;
    assert text[|name|..|name| + 2] == (if admin == Value(true) then AdminSeparator else Separator)[..2];
    assert text[|text| - |safe|..] == safe;
    assert admin == Value(true) ==> text[|name|..|name| + |AdminSeparator|] == AdminSeparator;
    assert admin != Value(true) && |name| + |AdminSeparator| <= |text| ==>
             text[|name|..|name| + |AdminSeparator|][0] == ':' != AdminSeparator[0];
    text
  }

  /** The scanned channels other than the origin, in scan order. */
  function Without(listing: seq<U64>, origin: U64): (targets: seq<U64>)
  {
    if listing == [] then []
    else
      var last := listing[|listing| - 1];
      Without(listing[..|listing| - 1], origin) + (if last == origin then [] else [last])
  }

  /** The destinations of a run of sends, in order. */
  function Targets(sends: seq<Send>): (r: seq<U64>)
    ensures |r| == |sends|
  {
    if sends == [] then [] else Targets(sends[..|sends| - 1]) + [sends[|sends| - 1].channel]
  }

  /** Each scanned channel other than the origin is a destination exactly as
      often as the scan yielded it; the origin never is. */
  lemma {:induction false} WithoutCounts(listing: seq<U64>, origin: U64)
    ensures multiset(Without(listing, origin)) == multiset(listing)[origin := 0]
  {
    if listing != [] {
      var init, last := listing[..|listing| - 1], listing[|listing| - 1];
      WithoutCounts(init, origin);
      assert listing == init + [last];
      assert multiset(listing) == multiset(init) + multiset{last};
      if last == origin {
        assert Without(listing, origin) == Without(init, origin) + [];
      } else {
        assert Without(listing, origin) == Without(init, origin) + [last];
        assert multiset(Without(listing, origin)) == multiset(Without(init, origin)) + multiset{last};
      }
    }
  }

  /** The origin channel never receives the message. */
  lemma OriginNeverTargeted(listing: seq<U64>, origin: U64)
    ensures origin !in Without(listing, origin)
  {
    WithoutCounts(listing, origin);
    assert multiset(Without(listing, origin))[origin] == 0;
  }

  /** When the scan covers `channels`, every registered channel other than the
      origin is a destination. */
  lemma ScanReachesEveryMirror(listing: seq<U64>, origin: U64, channels: set<U64>)
    requires forall c :: c in channels ==> c in listing
    ensures forall c :: c in channels && c != origin ==> c in Without(listing, origin)
  {
    WithoutCounts(listing, origin);
    forall c | c in channels && c != origin
      ensures c in Without(listing, origin)
    {
      assert multiset(listing)[c] > 0;
      assert multiset(Without(listing, origin))[c] > 0;
    }
  }

  /** The download loop: all attachments or none. The first failed download
      abandons the message. */
  method DownloadAll(atts: seq<Attachment>) returns (files: Option<seq<File>>)
    ensures files.Some? <==> Downloaded(atts)
    ensures files.Some? ==> IsDownloadOf(files.value, atts)
  {
    var acc: seq<File> := [];
    for i := 0 to |atts|
      invariant Downloaded(atts[..i])
      invariant IsDownloadOf(acc, atts[..i])
    {
      match atts[i].download
      case None =>
        return None;
      case Some(data) =>
        acc := acc + [File(atts[i].filename, data)];
    }
    assert atts[..|atts|] == atts;
    return Some(acc);
  }

  /** The fan-out loop: one send per scanned channel other than the origin,
      each with the same text and files; a failed send is logged and the loop
      goes on. */
  method Broadcast(listing: seq<U64>, origin: U64, content: string, files: seq<File>, failing: set<U64>)
    returns (sends: seq<Send>)
    ensures Targets(sends) == Without(listing, origin)
    ensures forall i :: 0 <= i < |sends| ==>
              && sends[i].content == content
              && sends[i].files == files
              && (sends[i].delivered <==> sends[i].channel !in failing)
  {
    sends := [];
    for i := 0 to |listing|
      invariant Targets(sends) == Without(listing[..i], origin)
      invariant forall j :: 0 <= j < |sends| ==>
                  && sends[j].content == content
                  && sends[j].files == files
                  && (sends[j].delivered <==> sends[j].channel !in failing)
    {
      assert listing[..i + 1][..i] == listing[..i];
      var channel := listing[i];
      if channel == origin {
        continue;
      }
      var delivered := channel !in failing;
      var sent := Send(channel, content, files, delivered);
      assert (sends + [sent])[..|sends|] == sends;
      sends := sends + [sent];
    }
    assert listing[..|listing|] == listing;
  }

  /** `Handler::message`. The usercache write is the only change to the
      store, happens as soon as the ban filter passes, is kept when a later
      step abandons the message, and its failure does not stop the relay. */
  method OnMessage(db: Database, msg: Message, discord: Discord, faults: StoreFaults)
    returns (stage: Stage, sends: seq<Send>)
    modifies db
    ensures stage == RelayStage(old(db.Snapshot()), msg, discord, faults)
    ensures db.Snapshot() ==
              if PastFilters(stage) && !faults.cacheAdd
              then old(db.Snapshot()).Add(UserCache(discord.displayName.value), msg.author)
              else old(db.Snapshot())
    ensures stage != Relayed ==> sends == []
    ensures stage == Relayed ==>
              && Targets(sends) == Without(faults.listing, msg.channel)
              && forall i :: 0 <= i < |sends| ==>
                   && sends[i].content == RelayText(discord.displayName.value,
                                                    AdminAnswer(old(db.Snapshot()), msg.author, faults.adminCheck),
                                                    discord.safeContent)
                   && IsDownloadOf(sends[i].files, msg.attachments)
                   && (sends[i].delivered <==> sends[i].channel !in discord.failingSends)
  {
    ghost var before := db.Snapshot();
    if msg.guild.None? {
      return NoGuild, [];
    }
    if msg.authorIsBot {
      return FromBot, [];
    }
    if discord.displayName.None? {
      return MemberUnavailable, [];
    }
    var name := discord.displayName.value;

    var mirrored := db.IsMember(Channels, msg.channel, faults.mirrorCheck);
    if mirrored.StoreError? {
      return MirrorCheckFailed, [];
    }
    if !mirrored.value {
      return NotMirror, [];
    }

    var banned := db.IsMember(Banned, msg.author, faults.banCheck);
    if banned.StoreError? {
      return BanCheckFailed, [];
    }
    if banned.value {
      return AuthorBanned, [];
    }

    // a failed usercache write is only logged
    var _ := db.Add(UserCache(name), msg.author, faults.cacheAdd);

    var content := name;
    var admin := db.IsMember(Admins, msg.author, faults.adminCheck);
    if admin == Value(true) {
      content := content + AdminSeparator;
    } else {
      content := content + Separator;
    }
    content := content + discord.safeContent;
    assert admin == AdminAnswer(before, msg.author, faults.adminCheck);

    var scanned := db.Scan(Channels, faults.listing, faults.scan);
    if scanned.StoreError? {
      return ScanFailed, [];
    }

    var files := DownloadAll(msg.attachments);
    if files.None? {
      return DownloadFailed, [];
    }

    sends := Broadcast(scanned.value, msg.channel, content, files.value, discord.failingSends);
    stage := Relayed;
  }
}
