/** Posting, history and the older reply-to-thread path (rest/messages.go). This file's
    version of GetGroupsNameInfo keeps no cache and its reply payload has no tshow field. */
module Messages {
  import opened Results
  import opened Strings
  import opened Remote
  import Rocket
  import Encoding

  // ---------------------------------------------------------------- Send

  datatype PostMessageReturn = PostMessageReturn(MessageId: string, ChannelId: string)

  /** What Send returns for the server's answer to chat.postMessage: the ids of the posted
      message, or the request's error and no value. */
  function PostMessageResult(reply: Result<ApiMessage>): (r: Result<PostMessageReturn>)
    ensures r.Ok? <==> reply.Ok?
    ensures reply.Err? ==> r.error == reply.error
    ensures reply.Ok? ==> r.value.MessageId == reply.value.Id && r.value.ChannelId == reply.value.ChannelId
  {
    match reply
    case Err(e) => Err(e)
    case Ok(m) => Ok(PostMessageReturn(m.Id, m.ChannelId))
  }

  /** Send: one chat.postMessage call with the channel's name and the text. */
  method Send(server: Server, channel: Channel, msg: string) returns (r: Result<PostMessageReturn>)
    modifies server
    ensures server.trace == old(server.trace) + [PostChatMessage(channel.Name, msg)]
    ensures r == PostMessageResult(server.data.postResult(channel.Name, msg))
  {
    var response := server.PostMessage(channel.Name, msg);
    r := PostMessageResult(response);
  }

  // ---------------------------------------------------------------- ids and lookups

  /** randomId: the same encoding as the client's GetRandomId. */
  function RandomId(random: Rocket.RandomBlock): (id: string)
    ensures |id| == 34 && Encoding.IsLowerHex(id)
    ensures id == Rocket.GetRandomId(random)
  {
    Encoding.HexEncode(random)
  }

  /** GetGroupsNameInfo (this file's version): asks the server on every call and passes
      its answer, or its error, through unchanged. */
  method GetGroupsNameInfo(server: Server, channelName: string) returns (r: Result<string>)
    modifies server
    ensures server.trace == old(server.trace) + [GetGroupInfo(channelName)]
    ensures r == server.data.groups(channelName)
  {
    r := server.GroupsInfo(channelName);
  }

  // ---------------------------------------------------------------- replies

  /** The chat.sendMessage body SendReplyMsg builds: no tshow field. */
  function ReplyMsgInfo(random: Rocket.RandomBlock, msg: string, groupId: string, threadId: string): SendMessageInfo {
    SendMessageInfo(RandomId(random), msg, groupId, threadId, None)
  }

  /** The payloads of the two versions differ only in the tshow field. */
  lemma ReplyPayloadsDifferInShowOnly(random: Rocket.RandomBlock, msg: string, groupId: string, threadId: string)
    ensures var m := ReplyMsgInfo(random, msg, groupId, threadId);
            && m.Text == msg && m.RoomId == groupId && m.TmId == threadId && m.TShow.None?
            && |m.Id| == 34 && Encoding.IsLowerHex(m.Id)
            && m.(TShow := Some(true)) == SendMessageInfo(Rocket.GetRandomId(random), msg, groupId, threadId, Some(true))
  {
  }

  /** SendReplyMsg: one chat.sendMessage call. */
  method SendReplyMsg(server: Server, groupId: string, threadId: string, msg: string,
                      random: Rocket.RandomBlock) returns (r: Outcome)
    modifies server
    ensures server.trace == old(server.trace) + [PostSendMessage(ReplyMsgInfo(random, msg, groupId, threadId))]
    ensures r == server.data.sendResult(ReplyMsgInfo(random, msg, groupId, threadId))
  {
    var replyMsg := ReplyMsgInfo(random, msg, groupId, threadId);
    r := server.SendMessage(replyMsg);
  }

  /** SendReply as a function of the server's answers. Once some listed thread matches,
      the reply goes to the first listed thread (as written, `toMatch` false) or to the
      first matching one (corrected, `toMatch` true). */
  function SendReplyWith(d: Directory, channel: Channel, originalMsg: string, newMsg: string,
                         random: Rocket.RandomBlock, toMatch: bool): Exchange<Outcome> {
    var lookup := [GetGroupInfo(channel.Name)];
    match d.groups(channel.Name)
    case Err(e) => Exchange(Fail(e), lookup)
    case Ok(groupId) =>
      var listed := lookup + [GetThreadsList(groupId)];
      match d.threads(groupId)
      case Err(e) => Exchange(Fail(e), listed)
      case Ok(threads) =>
        if FirstMatch(threads, originalMsg).None? then Exchange(Fail(OriginalNotFound), listed)
        else
          var t := if toMatch then FirstMatch(threads, originalMsg).value else 0;
          var m := ReplyMsgInfo(random, newMsg, groupId, threads[t].ThreadId);
          Exchange(d.sendResult(m), listed + [PostSendMessage(m)])
  }

  /** Every failure exit of SendReply (either version) comes before the only send: the
      lookup error or the listing error is passed through, a missing original message is
      reported, and nothing is sent. */
  lemma SendReplyFailsBeforeSending(d: Directory, channel: Channel, originalMsg: string, newMsg: string,
                                    random: Rocket.RandomBlock, toMatch: bool)
    ensures var e := SendReplyWith(d, channel, originalMsg, newMsg, random, toMatch);
            && (d.groups(channel.Name).Err? ==> e == Exchange(Fail(d.groups(channel.Name).error), [GetGroupInfo(channel.Name)]))
            && (d.groups(channel.Name).Ok? && d.threads(d.groups(channel.Name).value).Err? ==>
                  e.result == Fail(d.threads(d.groups(channel.Name).value).error) && NoSends(e.calls))
            && (d.groups(channel.Name).Ok? && d.threads(d.groups(channel.Name).value).Ok?
                && (forall j :: 0 <= j < |d.threads(d.groups(channel.Name).value).value| ==>
                      d.threads(d.groups(channel.Name).value).value[j].Msg != originalMsg) ==>
                  e.result == Fail(OriginalNotFound) && NoSends(e.calls))
  {
  }

  /** When a thread matches, SendReply sends exactly one reply, as its last call, to the
      looked-up room id (no '#' stripping, no cache): as written to the first listed thread,
      corrected to the first matching one. */
  lemma SendReplyTarget(d: Directory, channel: Channel, originalMsg: string, newMsg: string,
                        random: Rocket.RandomBlock, toMatch: bool, groupId: string, threads: seq<Thread>)
    requires d.groups(channel.Name) == Ok(groupId) && d.threads(groupId) == Ok(threads)
    requires FirstMatch(threads, originalMsg).Some?
    ensures var e := SendReplyWith(d, channel, originalMsg, newMsg, random, toMatch);
            var t := if toMatch then FirstMatch(threads, originalMsg).value else 0;
            && e.calls == [GetGroupInfo(channel.Name), GetThreadsList(groupId),
                           PostSendMessage(ReplyMsgInfo(random, newMsg, groupId, threads[t].ThreadId))]
            && (toMatch ==> threads[t].Msg == originalMsg)
  {
  }

  /** The defect of the as-written SendReply: whenever the first matching thread is not
      the first listed one, the reply goes to a thread whose root text is not originalMsg. */
  lemma SendReplyMisdirects(d: Directory, channel: Channel, originalMsg: string, newMsg: string,
                            random: Rocket.RandomBlock, groupId: string, threads: seq<Thread>)
    requires d.groups(channel.Name) == Ok(groupId) && d.threads(groupId) == Ok(threads)
    requires FirstMatch(threads, originalMsg).Some? && FirstMatch(threads, originalMsg).value > 0
    ensures var e := SendReplyWith(d, channel, originalMsg, newMsg, random, false);
            && IsSend(e.calls[2])
            && e.calls[2].message.TmId == threads[0].ThreadId
            && threads[0].Msg != originalMsg
  {
  }

  /** The two-thread room [T1 "hello", T2 "world"]: replying to "world", the as-written
      SendReply answers in thread T1, the corrected one in T2. */
  lemma SendReplyTwoThreadExample(random: Rocket.RandomBlock)
    ensures var d := TwoThreadRoom(false);
            var channel := Channel("G1", "general");
            && SendReplyWith(d, channel, "world", "reply", random, false).calls[2].message.TmId == "T1"
            && SendReplyWith(d, channel, "world", "reply", random, true).calls[2].message.TmId == "T2"
  {
    var threads := [Thread("T1", "hello"), Thread("T2", "world")];
    assert FirstMatch(threads, "world") == Some(1);
  }

  /** SendReply, as written: looks the channel name up (uncached), lists the room's
      threads, and once any thread's root text is originalMsg replies to Threads[0]. */
  method SendReply(server: Server, channel: Channel, originalMsg: string, newMsg: string,
                   random: Rocket.RandomBlock) returns (r: Outcome)
    modifies server
    ensures var e := SendReplyWith(server.data, channel, originalMsg, newMsg, random, false);
            r == e.result && server.trace == old(server.trace) + e.calls
  {
    var groupId := GetGroupsNameInfo(server, channel.Name);
    if groupId.Err? {
      return Fail(groupId.error);
    }

    var threadsList := server.ThreadsList(groupId.value);
    if threadsList.Err? {
      return Fail(threadsList.error);
    }

    var threads := threadsList.value;
    ghost var trace0 := server.trace;
    var i := 0;
    while i < |threads|
      invariant 0 <= i <= |threads|
      invariant forall j :: 0 <= j < i ==> threads[j].Msg != originalMsg
      invariant server.trace == trace0
    {
      if originalMsg == threads[i].Msg {
        r := SendReplyMsg(server, groupId.value, threads[0].ThreadId, newMsg, random);
        return;
      }
      i := i + 1;
    }
    r := Fail(OriginalNotFound);
  }

  /** SendReply, corrected: the reply goes to the thread that matched. */
  method SendReplyToMatch(server: Server, channel: Channel, originalMsg: string, newMsg: string,
                          random: Rocket.RandomBlock) returns (r: Outcome)
    modifies server
    ensures var e := SendReplyWith(server.data, channel, originalMsg, newMsg, random, true);
            r == e.result && server.trace == old(server.trace) + e.calls
  {
    var groupId := GetGroupsNameInfo(server, channel.Name);
    if groupId.Err? {
      return Fail(groupId.error);
    }

    var threadsList := server.ThreadsList(groupId.value);
    if threadsList.Err? {
      return Fail(threadsList.error);
    }

    var threads := threadsList.value;
    ghost var trace0 := server.trace;
    var i := 0;
    while i < |threads|
      invariant 0 <= i <= |threads|
      invariant forall j :: 0 <= j < i ==> threads[j].Msg != originalMsg
      invariant server.trace == trace0
    {
      if originalMsg == threads[i].Msg {
        assert FirstMatch(threads, originalMsg) == Some(i);
        r := SendReplyMsg(server, groupId.value, threads[i].ThreadId, newMsg, random);
        return;
      }
      i := i + 1;
    }
    r := Fail(OriginalNotFound);
  }

  // ---------------------------------------------------------------- history

  datatype Page = Page(Count: int)

  const HistoryEndpoint := "/api/v1/channels.history?"

  /** The query GetMessages sends: the room id, then "&count=<n>" when a page is given. */
  function HistoryQuery(channelId: string, page: Option<Page>): string {
    "roomId=" + channelId + (if page.Some? then "&count=" + Encoding.IntToDecimal(page.value.Count) else "")
  }

  /** The full channels.history URL. */
  function HistoryUrl(c: Rocket.Client, channelId: string, page: Option<Page>): (u: string)
    ensures HasPrefix(u, Rocket.GetUrl(c) + HistoryEndpoint)
  {
    var u := Rocket.GetUrl(c) + HistoryEndpoint + HistoryQuery(channelId, page);
    assert u[..|Rocket.GetUrl(c) + HistoryEndpoint|] == Rocket.GetUrl(c) + HistoryEndpoint;
    u
  }

  datatype HistoryParams = HistoryParams(roomId: string, count: Option<int>)

  /** Reads a history query back: the room id runs to the first '&'; what follows must be
      "&count=" and a decimal integer. */
  function ParseHistoryQuery(q: string): (r: Option<HistoryParams>)
    ensures r.Some? ==> '&' !in r.value.roomId
  {
    if !HasPrefix(q, "roomId=") then None
    else
      var rest := q[|"roomId="|..];
      match IndexOf(rest, '&')
      case None => Some(HistoryParams(rest, None))
      case Some(k) =>
        var tail := rest[k..];
        if !HasPrefix(tail, "&count=") then None
        else match Encoding.ParseInt(tail[|"&count="|..])
          case None => None
          case Some(n) => Some(HistoryParams(rest[..k], Some(n)))
  }

  /** The query determines the room id and the page size, provided the room id holds no
      '&'; in particular it carries a count exactly when a page was given. */
  lemma HistoryQueryRoundTrip(channelId: string, page: Option<Page>)
    requires '&' !in channelId
    ensures ParseHistoryQuery(HistoryQuery(channelId, page))
         == Some(HistoryParams(channelId, if page.Some? then Some(page.value.Count) else None))
    ensures ParseHistoryQuery(HistoryQuery(channelId, page)).value.count.Some? <==> page.Some?
  {
    var q := HistoryQuery(channelId, page);
    assert HasPrefix(q, "roomId=");
    var rest := q[|"roomId="|..];
    if page.None? {
      assert rest == channelId;
    } else {
      var digits := Encoding.IntToDecimal(page.value.Count);
      assert rest == channelId + ['&'] + ("count=" + digits);
      IndexOfJoin(channelId, '&', "count=" + digits);
      var tail := rest[|channelId|..];
      assert tail == "&count=" + digits;
      assert HasPrefix(tail, "&count=");
      assert tail[|"&count="|..] == digits;
      Encoding.IntToDecimalRoundTrip(page.value.Count);
      assert rest[..|channelId|] == channelId;
    }
  }

  /** GetMessages: builds the URL, adding the count when a page is given, and makes one
      channels.history call with it. */
  method GetMessages(c: Rocket.Client, server: Server, channel: Channel, page: Option<Page>)
    returns (r: Result<seq<ApiMessage>>)
    modifies server
    ensures server.trace == old(server.trace) + [GetHistory(HistoryUrl(c, channel.Id, page))]
    ensures r == server.data.history(HistoryUrl(c, channel.Id, page))
  {
    var u := Rocket.GetUrl(c) + HistoryEndpoint + "roomId=" + channel.Id;
    if page.Some? {
      u := u + "&count=" + Encoding.IntToDecimal(page.value.Count);
    }
    assert u == HistoryUrl(c, channel.Id, page);
    r := server.History(u);
  }
}
