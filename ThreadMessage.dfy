/** The channel-name to channel-id cache and the reply to a thread found by the text
    of its root message (rest/thread_message.go). */
module ThreadMessage {
  import opened Results
  import opened Strings
  import opened Remote
  import Rocket
  import Encoding

  // ---------------------------------------------------------------- the cache

  /** One remembered lookup. An entry whose Id is empty never answers a lookup. */
  datatype CacheChannelId = CacheChannelId(Name: string, Id: string)

  predicate Hits(entry: CacheChannelId, name: string) {
    entry.Name == name && entry.Id != ""
  }

  /** The Id of the first entry that hits `name`. */
  function Lookup(entries: seq<CacheChannelId>, name: string): (r: Option<string>)
    ensures r.Some? ==> r.value != ""
  {
    if entries == [] then None
    else if Hits(entries[0], name) then Some(entries[0].Id)
    else Lookup(entries[1..], name)
  }

  lemma {:induction false} LookupFirstHit(entries: seq<CacheChannelId>, name: string, i: nat)
    requires i < |entries| && Hits(entries[i], name)
    requires forall j :: 0 <= j < i ==> !Hits(entries[j], name)
    ensures Lookup(entries, name) == Some(entries[i].Id)
  {
    if i > 0 {
      LookupFirstHit(entries[1..], name, i - 1);
    }
  }

  lemma {:induction false} LookupMiss(entries: seq<CacheChannelId>, name: string)
    ensures Lookup(entries, name).None? <==> forall j :: 0 <= j < |entries| ==> !Hits(entries[j], name)
  {
    if entries != [] {
      LookupMiss(entries[1..], name);
      assert forall j :: 1 <= j < |entries| ==> entries[j] == entries[1..][j - 1];
    }
  }

  /** Entries appended later never shadow an earlier hit. */
  lemma {:induction false} LookupAppend(entries: seq<CacheChannelId>, more: seq<CacheChannelId>, name: string)
    ensures Lookup(entries + more, name) == if Lookup(entries, name).Some? then Lookup(entries, name) else Lookup(more, name)
  {
    if entries != [] {
      assert (entries + more)[1..] == entries[1..] + more;
      LookupAppend(entries[1..], more, name);
    } else {
      assert entries + more == more;
    }
  }

  /** The cache holds at most one usable entry per name. */
  ghost predicate OneIdPerName(entries: seq<CacheChannelId>) {
    forall i, j :: 0 <= i < j < |entries| && entries[i].Id != "" && entries[j].Id != "" ==> entries[i].Name != entries[j].Name
  }

  /** The result of an operation, the cache after it, and the remote calls it made:
      Remote.Exchange extended by the cache, for the operations that go through it. */
  datatype Effect<T> = Effect(result: T, entries: seq<CacheChannelId>, calls: seq<Call>)

  /** GetGroupsNameInfo on a cache holding `entries`: a hit answers with no remote call;
      a miss makes one groups.info call, whose failure leaves the cache as it was and
      whose success is appended. */
  function Resolve(entries: seq<CacheChannelId>, name: string, d: Directory): Effect<Result<string>> {
    match Lookup(entries, name)
    case Some(id) => Effect(Ok(id), entries, [])
    case None =>
      match d.groups(name)
      case Err(_) => Effect(Err(GroupInfo(name)), entries, [GetGroupInfo(name)])
      case Ok(id) => Effect(Ok(id), entries + [CacheChannelId(name, id)], [GetGroupInfo(name)])
  }

  /** A hit is the first entry with the name and a non-empty Id; no remote call is made. */
  lemma ResolveHit(entries: seq<CacheChannelId>, name: string, d: Directory, i: nat)
    requires i < |entries| && Hits(entries[i], name)
    requires forall j :: 0 <= j < i ==> !Hits(entries[j], name)
    ensures Resolve(entries, name, d) == Effect(Ok(entries[i].Id), entries, [])
  {
    LookupFirstHit(entries, name, i);
  }

  /** Without a usable entry exactly one remote lookup happens; a failure is reported and
      cached nowhere; a success is appended at the end and returned. */
  lemma ResolveMiss(entries: seq<CacheChannelId>, name: string, d: Directory)
    requires forall j :: 0 <= j < |entries| ==> !Hits(entries[j], name)
    ensures Resolve(entries, name, d).calls == [GetGroupInfo(name)]
    ensures d.groups(name).Err? ==> Resolve(entries, name, d) == Effect(Err(GroupInfo(name)), entries, [GetGroupInfo(name)])
    ensures d.groups(name).Ok? ==> Resolve(entries, name, d).result == d.groups(name)
    ensures d.groups(name).Ok? ==> Resolve(entries, name, d).entries == entries + [CacheChannelId(name, d.groups(name).value)]
  {
    LookupMiss(entries, name);
  }

  /** Resolution never adds a second usable entry for a name. */
  lemma ResolveKeepsOneIdPerName(entries: seq<CacheChannelId>, name: string, d: Directory)
    requires OneIdPerName(entries)
    ensures OneIdPerName(Resolve(entries, name, d).entries)
  {
    if Lookup(entries, name).None? {
      LookupMiss(entries, name);
    }
  }

  /** Once a name has resolved to a non-empty id, every later resolution of it, whatever
      else has been cached meanwhile and whatever the server now says, returns that id
      without a remote call. */
  lemma ResolveIsStable(entries: seq<CacheChannelId>, name: string, d: Directory, id: string,
                        later: seq<CacheChannelId>, d': Directory)
    requires Resolve(entries, name, d).result == Ok(id) && id != ""
    ensures var cached := Resolve(entries, name, d).entries + later;
            Resolve(cached, name, d') == Effect(Ok(id), cached, [])
  {
    var s := Resolve(entries, name, d);
    if Lookup(entries, name).None? {
      LookupFirstHit(s.entries, name, |entries|) by {
        LookupMiss(entries, name);
      }
    }
    LookupAppend(s.entries, later, name);
  }

  /** A failed resolution caches nothing, so the next one asks the server again. */
  lemma FailedResolveRetries(entries: seq<CacheChannelId>, name: string, d: Directory, d': Directory)
    requires Resolve(entries, name, d).result.Err?
    ensures Resolve(entries, name, d).entries == entries
    ensures Resolve(entries, name, d).calls == [GetGroupInfo(name)]
    ensures Resolve(Resolve(entries, name, d).entries, name, d').calls == [GetGroupInfo(name)]
  {
  }

  /** The package-level cacheChannelId slice, grown in place by GetGroupsNameInfo. */
  class ChannelIdCache {
    var entries: seq<CacheChannelId>

    ghost predicate Valid()
      reads this
    {
      OneIdPerName(entries)
    }

    constructor ()
      ensures Valid() && entries == []
    {
      entries := [];
    }

    /** GetGroupsNameInfo (the cached version): scans the entries in order, and on a miss
        asks the server and appends the answer. */
    method GetGroupsNameInfo(server: Server, channelName: string) returns (r: Result<string>)
      requires Valid()
      modifies this, server
      ensures Valid()
      ensures var e := Resolve(old(entries), channelName, server.data);
              r == e.result && entries == e.entries && server.trace == old(server.trace) + e.calls
    {
      var i := 0;
      while i < |entries|
        invariant 0 <= i <= |entries|
        invariant forall j :: 0 <= j < i ==> !Hits(entries[j], channelName)
      {
        if entries[i].Name == channelName && entries[i].Id != "" {
          LookupFirstHit(entries, channelName, i);
          return Ok(entries[i].Id);
        }
        i := i + 1;
      }
      LookupMiss(entries, channelName);

      var reply := server.GroupsInfo(channelName);
      if reply.Err? {
        return Err(GroupInfo(channelName));
      }
      ResolveKeepsOneIdPerName(entries, channelName, server.data);
      entries := entries + [CacheChannelId(channelName, reply.value)];
      r := Ok(reply.value);
    }
  }

  // ---------------------------------------------------------------- thread replies

  /** The chat.sendMessage body ThreadReply builds: shown in the channel, addressed to
      the room and the thread, with a fresh random id. */
  function ReplyMessage(random: Rocket.RandomBlock, msg: string, roomId: string, threadId: string): SendMessageInfo {
    SendMessageInfo(Rocket.GetRandomId(random), msg, roomId, threadId, Some(true))
  }

  /** ThreadReply on a cache holding `entries`: its first argument is taken as a channel
      name, stripped of one '#' and resolved through the cache; only then is the reply sent. */
  function ThreadReplyEffect(entries: seq<CacheChannelId>, d: Directory, channelName: string, threadId: string,
                             msg: string, random: Rocket.RandomBlock): Effect<Outcome> {
    var name := TrimHash(channelName);
    var s := Resolve(entries, name, d);
    match s.result
    case Err(_) => Effect(Fail(ChannelId(name)), s.entries, s.calls)
    case Ok(groupId) =>
      var m := ReplyMessage(random, msg, groupId, threadId);
      Effect(d.sendResult(m), s.entries, s.calls + [PostSendMessage(m)])
  }

  /** ThreadReplyByOriginalChannelMessage on a cache holding `entries`. */
  function ReplyByOriginalEffect(entries: seq<CacheChannelId>, d: Directory, channelName: string, originalText: string,
                                 replyText: string, random: Rocket.RandomBlock): Effect<Outcome> {
    var s := Resolve(entries, TrimHash(channelName), d);
    match s.result
    case Err(e) => Effect(Fail(e), s.entries, s.calls)
    case Ok(groupId) =>
      var listed := s.calls + [GetThreadsList(groupId)];
      match d.threads(groupId)
      case Err(e) => Effect(Fail(e), s.entries, listed)
      case Ok(threads) =>
        match FirstMatch(threads, originalText)
        case None => Effect(Fail(ThreadNotFound), s.entries, listed)
        case Some(i) =>
          var reply := ThreadReplyEffect(s.entries, d, groupId, threads[i].ThreadId, replyText, random);
          Effect(reply.result, reply.entries, listed + reply.calls)
  }

  /** ThreadReply: a failed resolution is reported before anything is sent; otherwise
      exactly one reply goes out, last, with tshow set, the given text and thread, the
      room id the stripped first argument resolved to, and a 34-digit hex id. */
  lemma ThreadReplyPayload(entries: seq<CacheChannelId>, d: Directory, channelName: string, threadId: string,
                           msg: string, random: Rocket.RandomBlock)
    ensures var s := Resolve(entries, TrimHash(channelName), d);
            var e := ThreadReplyEffect(entries, d, channelName, threadId, msg, random);
            && e.entries == s.entries
            && (s.result.Err? ==> e.result == Fail(ChannelId(TrimHash(channelName))) && NoSends(e.calls))
            && (s.result.Ok? ==>
                  && |e.calls| == |s.calls| + 1 && e.calls[..|s.calls|] == s.calls && NoSends(s.calls)
                  && IsSend(e.calls[|s.calls|])
                  && var m := e.calls[|s.calls|].message;
                     && m.TShow == Some(true) && m.Text == msg && m.TmId == threadId
                     && m.RoomId == s.result.value
                     && |m.Id| == 34 && Encoding.IsLowerHex(m.Id)
                     && e.result == d.sendResult(m))
  {
    var s := Resolve(entries, TrimHash(channelName), d);
    var e := ThreadReplyEffect(entries, d, channelName, threadId, msg, random);
    if s.result.Ok? {
      assert e.calls[..|s.calls|] == s.calls;
    }
  }

  /** Every failure exit comes before the only send: a failed resolution, a failed thread
      listing or the absence of a thread with the original text returns an error and sends
      nothing. */
  lemma ReplyByOriginalFailsBeforeSending(entries: seq<CacheChannelId>, d: Directory, channelName: string,
                                          originalText: string, replyText: string, random: Rocket.RandomBlock)
    ensures var s := Resolve(entries, TrimHash(channelName), d);
            var e := ReplyByOriginalEffect(entries, d, channelName, originalText, replyText, random);
            && (s.result.Err? ==> e == Effect(Fail(GroupInfo(TrimHash(channelName))), entries, s.calls) && NoSends(e.calls))
            && (s.result.Ok? && d.threads(s.result.value).Err? ==>
                  e.result == Fail(d.threads(s.result.value).error) && NoSends(e.calls))
            && (s.result.Ok? && d.threads(s.result.value).Ok?
                && (forall j :: 0 <= j < |d.threads(s.result.value).value| ==> d.threads(s.result.value).value[j].Msg != originalText) ==>
                  e.result == Fail(ThreadNotFound) && NoSends(e.calls))
  {
  }

  /** When some thread has the original text, the reply goes to the first such thread in
      list order: the operation continues as ThreadReply given the resolved id (not the
      name) and that thread's id, after the lookup and the listing. */
  lemma ReplyByOriginalTargetsFirstMatch(entries: seq<CacheChannelId>, d: Directory, channelName: string,
                                         originalText: string, replyText: string, random: Rocket.RandomBlock,
                                         threads: seq<Thread>, i: nat)
    requires Resolve(entries, TrimHash(channelName), d).result.Ok?
    requires d.threads(Resolve(entries, TrimHash(channelName), d).result.value) == Ok(threads)
    requires i < |threads| && threads[i].Msg == originalText
    requires forall j :: 0 <= j < i ==> threads[j].Msg != originalText
    ensures var s := Resolve(entries, TrimHash(channelName), d);
            var groupId := s.result.value;
            var reply := ThreadReplyEffect(s.entries, d, groupId, threads[i].ThreadId, replyText, random);
            ReplyByOriginalEffect(entries, d, channelName, originalText, replyText, random)
              == Effect(reply.result, reply.entries, s.calls + [GetThreadsList(groupId)] + reply.calls)
    ensures var e := ReplyByOriginalEffect(entries, d, channelName, originalText, replyText, random);
            forall k :: 0 <= k < |e.calls| && IsSend(e.calls[k]) ==>
              k == |e.calls| - 1 && e.calls[k].message.TmId == threads[i].ThreadId && e.calls[k].message.Text == replyText
  {
    var s := Resolve(entries, TrimHash(channelName), d);
    var groupId := s.result.value;
    assert FirstMatch(threads, originalText) == Some(i);
    ThreadReplyPayload(s.entries, d, groupId, threads[i].ThreadId, replyText, random);
  }

  /** The double resolution: ThreadReply receives the room id and resolves it again as a
      name. If that id is neither cached as a name nor known to the server as a room name,
      the operation finds the thread and still ends with a ChannelId error and no send. */
  lemma ReplyByOriginalResolvesIdAsName(entries: seq<CacheChannelId>, d: Directory, channelName: string,
                                        originalText: string, replyText: string, random: Rocket.RandomBlock,
                                        groupId: string)
    requires Lookup(entries, TrimHash(channelName)).None?
    requires d.groups(TrimHash(channelName)) == Ok(groupId)
    requires d.threads(groupId).Ok? && FirstMatch(d.threads(groupId).value, originalText).Some?
    requires TrimHash(groupId) != TrimHash(channelName)
    requires Lookup(entries, TrimHash(groupId)).None? && d.groups(TrimHash(groupId)).Err?
    ensures var e := ReplyByOriginalEffect(entries, d, channelName, originalText, replyText, random);
            && e.result == Fail(ChannelId(TrimHash(groupId)))
            && e.calls == [GetGroupInfo(TrimHash(channelName)), GetThreadsList(groupId), GetGroupInfo(TrimHash(groupId))]
            && NoSends(e.calls)
  {
    var name := TrimHash(channelName);
    LookupAppend(entries, [CacheChannelId(name, groupId)], TrimHash(groupId));
  }

  /** Replying to "world" in "#general" on an empty cache finds thread T2, then fails to
      resolve "G1" as a name and sends nothing; only a server that answers for the name
      "G1" receives the reply, addressed to T2. */
  lemma TwoThreadExample(random: Rocket.RandomBlock)
    ensures ReplyByOriginalEffect([], TwoThreadRoom(false), "#general", "world", "reply", random)
              == Effect(Fail(ChannelId("G1")), [CacheChannelId("general", "G1")],
                        [GetGroupInfo("general"), GetThreadsList("G1"), GetGroupInfo("G1")])
    ensures ReplyByOriginalEffect([], TwoThreadRoom(true), "#general", "world", "reply", random).calls
              == [GetGroupInfo("general"), GetThreadsList("G1"), GetGroupInfo("G1"),
                  PostSendMessage(SendMessageInfo(Rocket.GetRandomId(random), "reply", "G1", "T2", Some(true)))]
  {
    var threads := [Thread("T1", "hello"), Thread("T2", "world")];
    assert FirstMatch(threads, "world") == Some(1);
    assert TrimHash("#general") == "general" by {
      assert HasPrefix("#general", "#");
    }
    assert TrimHash("G1") == "G1" by {
      assert !HasPrefix("G1", "#");
    }
    var cached := [CacheChannelId("general", "G1")];
    assert Resolve([], "general", TwoThreadRoom(false)) == Effect(Ok("G1"), cached, [GetGroupInfo("general")]);
    assert Lookup(cached, "G1") == None by {
      assert "general" != "G1";
      assert cached[1..] == [];
    }
  }

  /** ThreadReply (rest/thread_message.go): strips one '#', resolves through the cache
      and sends the reply. */
  method ThreadReply(cache: ChannelIdCache, server: Server, channelName: string, threadId: string,
                     msg: string, random: Rocket.RandomBlock) returns (r: Outcome)
    requires cache.Valid()
    modifies cache, server
    ensures cache.Valid()
    ensures var e := ThreadReplyEffect(old(cache.entries), server.data, channelName, threadId, msg, random);
            r == e.result && cache.entries == e.entries && server.trace == old(server.trace) + e.calls
  {
    var name := TrimHash(channelName);
    var groupId := cache.GetGroupsNameInfo(server, name);
    if groupId.Err? {
      return Fail(ChannelId(name));
    }
    var replyMsg := ReplyMessage(random, msg, groupId.value, threadId);
    r := server.SendMessage(replyMsg);
  }

  /** ThreadReplyByOriginalChannelMessage: resolves the channel, lists its threads, and
      replies through ThreadReply to the first thread whose root text is originalText. */
  method ThreadReplyByOriginalChannelMessage(cache: ChannelIdCache, server: Server, channelName: string,
                                             originalText: string, replyText: string,
                                             random: Rocket.RandomBlock) returns (r: Outcome)
    requires cache.Valid()
    modifies cache, server
    ensures cache.Valid()
    ensures var e := ReplyByOriginalEffect(old(cache.entries), server.data, channelName, originalText, replyText, random);
            r == e.result && cache.entries == e.entries && server.trace == old(server.trace) + e.calls
  {
    var name := TrimHash(channelName);
    var groupId := cache.GetGroupsNameInfo(server, name);
    if groupId.Err? {
      return Fail(groupId.error);
    }

    var threadsList := server.ThreadsList(groupId.value);
    if threadsList.Err? {
      return Fail(threadsList.error);
    }

    var threads := threadsList.value;
    ghost var entries0, trace0 := cache.entries, server.trace;
    var i := 0;
    while i < |threads|
      invariant 0 <= i <= |threads|
      invariant forall j :: 0 <= j < i ==> threads[j].Msg != originalText
      invariant cache.entries == entries0 && server.trace == trace0
    {
      if originalText == threads[i].Msg {
        assert FirstMatch(threads, originalText) == Some(i);
        r := ThreadReply(cache, server, groupId.value, threads[i].ThreadId, replyText, random);
        return;
      }
      i := i + 1;
    }

    r := Fail(ThreadNotFound);
  }
}
