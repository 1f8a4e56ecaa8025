/** The chat server as the REST client sees it: what each endpoint answers, and the
    trace of the calls the client made. Every REST call of the client goes through
    doRequest; here each is one oracle step that answers from `data` and is recorded. */
module Remote {
  import opened Results

  /** One entry of chat.getThreadsList: the thread id and the text of its root message. */
  datatype Thread = Thread(ThreadId: string, Msg: string)

  /** api.Channel. */
  datatype Channel = Channel(Id: string, Name: string)

  /** The fields of api.Message the client reads. */
  datatype ApiMessage = ApiMessage(Id: string, ChannelId: string, Msg: string)

  /** The body of chat.sendMessage. `TShow` is None when the version of the payload
      has no such field, so the JSON carries no "tshow" key at all. */
  datatype SendMessageInfo = SendMessageInfo(Id: string, Text: string, RoomId: string, TmId: string, TShow: Option<bool>)

  /** The calls the client makes, in the order it makes them. */
  datatype Call =
    | GetGroupInfo(roomName: string)            // GET groups.info?roomName=
    | GetThreadsList(rid: string)               // GET chat.getThreadsList?rid=
    | PostSendMessage(message: SendMessageInfo) // POST chat.sendMessage
    | PostChatMessage(channel: string, text: string)  // POST chat.postMessage
    | GetHistory(url: string)                   // GET channels.history

  /** What the server answers. A successful groups.info always carries a group. */
  datatype Directory = Directory(
    groups: string -> Result<string>,              // room name -> room id
    threads: string -> Result<seq<Thread>>,        // room id -> its threads, in server order
    sendResult: SendMessageInfo -> Outcome,        // accepts or refuses a reply
    postResult: (string, string) -> Result<ApiMessage>,  // (channel name, text) -> the posted message
    history: string -> Result<seq<ApiMessage>>     // full request URL -> messages
  )

  predicate IsSend(call: Call) {
    call.PostSendMessage?
  }

  /** No call of the trace sends a reply. */
  predicate NoSends(calls: seq<Call>) {
    forall k :: 0 <= k < |calls| ==> !IsSend(calls[k])
  }

  /** The position of the first thread whose root text is exactly `text`. */
  function FirstMatch(threads: seq<Thread>, text: string): (r: Option<nat>)
    ensures r.Some? ==> r.value < |threads| && threads[r.value].Msg == text
    ensures r.Some? ==> forall j :: 0 <= j < r.value ==> threads[j].Msg != text
    ensures r.None? <==> forall j :: 0 <= j < |threads| ==> threads[j].Msg != text
  {
    if threads == [] then None
    else if threads[0].Msg == text then Some(0)
    else match FirstMatch(threads[1..], text)
      case None => None
      case Some(k) => Some(k + 1)
  }

  /** A call's result and the calls it made (for operations that also use the channel-id
      cache, ThreadMessage.Effect adds the cache's entries). */
  datatype Exchange<T> = Exchange(result: T, calls: seq<Call>)

  /** A room "general" with id "G1" and two threads, T1 rooted at "hello" and T2 at
      "world". With `idIsName` the server also answers groups.info for the name "G1". */
  function TwoThreadRoom(idIsName: bool): Directory {
    Directory(
      n => if n == "general" || (idIsName && n == "G1") then Ok("G1") else Err(Status("400 Bad Request")),
      rid => if rid == "G1" then Ok([Thread("T1", "hello"), Thread("T2", "world")]) else Err(Status("400 Bad Request")),
      m => Pass,
      (c, t) => Err(Status("400 Bad Request")),
      u => Err(Status("400 Bad Request")))
  }

  /** The server; `trace` grows by one entry per call and is never rewritten. */
  class Server {
    const data: Directory
    var trace: seq<Call>

    constructor (data: Directory)
      ensures this.data == data && trace == []
    {
      this.data := data;
      trace := [];
    }

    method GroupsInfo(roomName: string) returns (r: Result<string>)
      modifies this
      ensures trace == old(trace) + [GetGroupInfo(roomName)]
      ensures r == data.groups(roomName)
    {
      trace := trace + [GetGroupInfo(roomName)];
      r := data.groups(roomName);
    }

    method ThreadsList(rid: string) returns (r: Result<seq<Thread>>)
      modifies this
      ensures trace == old(trace) + [GetThreadsList(rid)]
      ensures r == data.threads(rid)
    {
      trace := trace + [GetThreadsList(rid)];
      r := data.threads(rid);
    }

    method SendMessage(message: SendMessageInfo) returns (r: Outcome)
      modifies this
      ensures trace == old(trace) + [PostSendMessage(message)]
      ensures r == data.sendResult(message)
    {
      trace := trace + [PostSendMessage(message)];
      r := data.sendResult(message);
    }

    method PostMessage(channel: string, text: string) returns (r: Result<ApiMessage>)
      modifies this
      ensures trace == old(trace) + [PostChatMessage(channel, text)]
      ensures r == data.postResult(channel, text)
    {
      trace := trace + [PostChatMessage(channel, text)];
      r := data.postResult(channel, text);
    }

    method History(url: string) returns (r: Result<seq<ApiMessage>>)
      modifies this
      ensures trace == old(trace) + [GetHistory(url)]
      ensures r == data.history(url)
    {
      trace := trace + [GetHistory(url)];
      r := data.history(url);
    }
  }
}
