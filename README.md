# gorocket REST core, modelled in Dafny

This project models the core of the REST client of gorocket, a Go client for a
Rocket.Chat server:

- the channel-name → channel-id cache (`cacheChannelId` and the cached `GetGroupsNameInfo`);
- the reply to a thread found by the exact text of its root message (`ThreadReplyByOriginalChannelMessage`, `ThreadReply`);
- the older `SendReply` path and its payload (`SendReplyMsg`), the uncached `GetGroupsNameInfo`, `Send` and `GetMessages`;
- client construction (`NewClient`), the base URL (`getUrl`), the random message id (`GetRandomId`, `randomId`) and the common request step (`doRequest`).

The server is abstract. Every REST call is one step of a `Remote.Server` object. The step answers from a
`Remote.Directory`: room name → id, room id → threads, the verdict on a sent reply, the posted message, and the
history per URL. Each step also appends one `Remote.Call` to the server's `trace`. "Nothing was sent" is
therefore a statement about the trace. The cache is a `ThreadMessage.ChannelIdCache` object whose `entries`
sequence is grown in place, as the Go code grows its package-level slice.

Modules, one per source file plus helpers:

- `Results`: the error kinds, `Option`, `Result` and `Outcome`.
- `Encoding`: lowercase hex (Go's `hex.EncodeToString`) and `%d` decimal, each with a reader and a round-trip lemma.
- `Strings`: `strings.TrimPrefix`, the `#` stripping, and a character search.
- `Rocket`: `rest/rocket.go`.
- `Remote`: the abstract server, thread matching, and the call trace.
- `ThreadMessage`: `rest/thread_message.go`.
- `Messages`: `rest/messages.go`.

Both `rest/messages.go` and `rest/thread_message.go` declare `SendMessageInfo`, `GetGroupsNameInfo` and the
thread types. They are modelled as two versions:

- `ThreadMessage.ChannelIdCache.GetGroupsNameInfo` uses the cache; `Messages.GetGroupsNameInfo` asks the server every time.
- The `thread_message.go` payload carries `tshow: true`; the `messages.go` payload has no such field (`TShow == None`).

Operations that loop or change state are methods, proved against specification functions:

- `Resolve` specifies the cached lookup.
- `ThreadReplyEffect` and `ReplyByOriginalEffect` specify the two thread replies.
- `SendReplyWith` specifies both `SendReply` versions.
- `RequestOutcome` and `WithSession` specify `doRequest`.

Lemmas then state the promised properties about these functions.

Points where the code's behaviour is easy to misread; the model follows the code:

- The cache appends whatever id the server returns, the empty string included. An entry with an empty `Id` never
  answers a lookup, so such entries can repeat for one name. The invariant the model keeps is at most one entry
  with a *non-empty* id per name (`OneIdPerName`).
- The cached lookup does not strip `#` itself. Its callers in `thread_message.go` do. `SendReply` in
  `messages.go` does not strip `#` at all.
- `ThreadReplyByOriginalChannelMessage` passes the resolved room *id* to `ThreadReply`, which strips `#` from it
  and resolves it again *as a name*. The reply's room is whatever that second resolution yields. When the server
  knows no room named like the id, the thread is found but the reply fails with a `ChannelId` error and nothing
  is sent (`ReplyByOriginalResolvesIdAsName`, `TwoThreadExample`). This is modelled as written, not corrected.

## Model

| member | source | states |
|---|---|---|
| Rocket.NewClient | rest/rocket.go:46-61 | the protocol is "https" exactly when TLS is requested, otherwise "http"; host, port and debug flag are copied; a failed login gives no client, only the login's error |
| Rocket.UrlRoundTrip | rest/rocket.go:63-65 | the base URL is protocol, "://", host, ":", port: reading it back yields exactly those three parts when protocol and host contain no ':' |
| Rocket.UrlScheme | rest/rocket.go:63-65 | for a client speaking http or https, the base URL starts with "https://" if and only if the protocol is https |
| Rocket.NewClientUrl | rest/rocket.go:46-65 | the URL of a new client starts with "https://" if and only if TLS was requested, and carries the caller's host and port |
| Rocket.GetRandomId | rest/rocket.go:102-107 | the id is the lowercase hex of the 17 random bytes: 34 characters from 0-9a-f that decode back to those bytes |
| Rocket.RequestOutcome | rest/rocket.go:78-99 | a transport error is returned unchanged; any status other than 200 is an error before the read error is examined or the body decoded; with status 200 the result is exactly the read error, or else exactly the decoder's result |
| Rocket.WithSession | rest/rocket.go:69-72 | the X-Auth-Token and X-User-Id headers are set to the session's token and user id only when the client has a session; every other header is kept |
| Rocket.DoRequest | rest/rocket.go:67-100 | the request's header map is updated in place as WithSession says, and the result is the status decision of RequestOutcome |
| Encoding.HexEncode | rest/rocket.go:106 | the encoding has two characters per byte, all from the lowercase alphabet 0-9a-f |
| Encoding.HexRoundTrip | rest/messages.go:88 | decoding the hex encoding gives back the original bytes |
| Encoding.HexEncodeAt | rest/rocket.go:106 | characters 2i and 2i+1 are the high and low nibble of byte i |
| Encoding.NatToDecimal | rest/messages.go:157 | the decimal notation consists of digits only, without a leading zero |
| Encoding.IntToDecimal | rest/messages.go:157 | `%d` writes a minus sign exactly for negative numbers and digits otherwise |
| Encoding.IntToDecimalRoundTrip | rest/messages.go:157 | the `%d` rendering of the page count reads back as the same integer |
| Strings.TrimPrefix | rest/thread_message.go:50 | the result is the input less one leading copy of the prefix when the input starts with it, otherwise the input unchanged |
| Strings.TrimHash | rest/thread_message.go:86 | the channel name loses exactly one leading '#' when it has one and is otherwise unchanged |
| Strings.TrimHashOnce | rest/thread_message.go:50 | only one '#' is removed: "##x" becomes "#x" |
| Remote.FirstMatch | rest/thread_message.go:63-67 | the index of the first thread whose root text equals the original text exactly; none if and only if no thread matches |
| Remote.Server.GroupsInfo | rest/thread_message.go:124-129 | one groups.info call is recorded and the server's answer for the room name is returned |
| Remote.Server.ThreadsList | rest/thread_message.go:73-82 | one chat.getThreadsList call is recorded and the listing, or its error, is returned unchanged |
| Remote.Server.SendMessage | rest/thread_message.go:106-112 | one chat.sendMessage call with the payload is recorded and the server's verdict is returned |
| Remote.Server.PostMessage | rest/messages.go:67-74 | one chat.postMessage call with channel name and text is recorded and the server's answer is returned |
| Remote.Server.History | rest/messages.go:160-165 | one channels.history call with the URL is recorded and the messages, or the error, are returned |
| ThreadMessage.Lookup | rest/thread_message.go:117-121 | a cache hit never yields an empty id |
| ThreadMessage.LookupFirstHit | rest/thread_message.go:117-121 | a lookup returns the Id of the first entry with an equal Name and a non-empty Id |
| ThreadMessage.LookupMiss | rest/thread_message.go:117-121 | a lookup misses exactly when no entry has the name and a non-empty Id, so entries with an empty Id never satisfy it |
| ThreadMessage.LookupAppend | rest/thread_message.go:131-133 | entries appended later never change an earlier hit; after a miss, the lookup is decided by the appended entries |
| ThreadMessage.ResolveHit | rest/thread_message.go:115-121 | on a hit the first matching entry's Id is returned, with no remote call and the cache unchanged |
| ThreadMessage.ResolveMiss | rest/thread_message.go:123-135 | on a miss exactly one groups.info call is made; a failure returns the lookup error and leaves the cache as it was; a success appends `{name, id}` at the end, keeps the earlier entries, and returns that id |
| ThreadMessage.ResolveKeepsOneIdPerName | rest/thread_message.go:117-133 | resolution never puts a second entry with a non-empty Id for the same name into the cache |
| ThreadMessage.ResolveIsStable | rest/thread_message.go:117-135 | once a name has resolved to a non-empty id, every later resolution of it returns the same id without a remote call, whatever was cached since and whatever the server now answers |
| ThreadMessage.FailedResolveRetries | rest/thread_message.go:124-129 | a failed resolution caches nothing, so the next resolution of the name asks the server again |
| ThreadMessage.ChannelIdCache.constructor | rest/thread_message.go:45 | the cache starts empty and satisfies its invariant |
| ThreadMessage.ChannelIdCache.GetGroupsNameInfo | rest/thread_message.go:115-136 | the linear scan with early return and the append on a successful remote lookup produce exactly Resolve's result, new cache and remote calls, and keep at most one non-empty entry per name |
| ThreadMessage.ThreadReplyPayload | rest/thread_message.go:85-100 | a failed resolution returns a ChannelId error before any send; otherwise exactly one reply is sent, last, with tshow true, the given text and thread id, the room id that the '#'-stripped first argument resolved to, and a 34-character hex id |
| ThreadMessage.ReplyByOriginalFailsBeforeSending | rest/thread_message.go:48-70 | a failed resolution, a failed thread listing, or no thread with exactly the original text each return an error, and none of them sends anything |
| ThreadMessage.ReplyByOriginalTargetsFirstMatch | rest/thread_message.go:62-67 | when a thread matches, the operation continues as ThreadReply with the resolved id and the first matching thread's id, and its only send goes to that thread, last |
| ThreadMessage.ReplyByOriginalResolvesIdAsName | rest/thread_message.go:65-90 | the resolved id is resolved again as a name; when it is neither cached nor known as a room name, the matched thread gets no reply and a ChannelId error is returned |
| ThreadMessage.TwoThreadExample | rest/thread_message.go:48-100 | in a room "general" (id "G1") with threads T1 "hello" and T2 "world", replying to "world" fails without sending unless the server also answers for the name "G1", in which case the reply goes to T2 |
| ThreadMessage.ThreadReply | rest/thread_message.go:85-113 | strips one '#', resolves through the cache and sends, with the result, the new cache and the appended calls those of ThreadReplyEffect |
| ThreadMessage.ThreadReplyByOriginalChannelMessage | rest/thread_message.go:48-71 | resolves, lists threads, scans them in order with early return and delegates to ThreadReply; the result, the new cache and the appended calls are those of ReplyByOriginalEffect |
| Messages.PostMessageResult | rest/messages.go:74-82 | Send succeeds exactly when the request does, then returning the posted message's Id and ChannelId; otherwise it returns the request's error |
| Messages.Send | rest/messages.go:66-83 | one chat.postMessage call with the channel's name and the text, answered as PostMessageResult says |
| Messages.RandomId | rest/messages.go:85-89 | 34 lowercase hex characters, the same encoding as the client's GetRandomId |
| Messages.GetGroupsNameInfo | rest/messages.go:91-99 | every call makes one groups.info request and returns the server's answer or error unchanged: no cache |
| Messages.ReplyPayloadsDifferInShowOnly | rest/messages.go:112-120 | SendReplyMsg's payload has text msg, room groupId, thread threadId, a 34-character hex id and no tshow field; apart from that field it equals ThreadReply's payload |
| Messages.SendReplyMsg | rest/messages.go:112-128 | one chat.sendMessage call with that payload; the server's verdict is returned |
| Messages.SendReplyFailsBeforeSending | rest/messages.go:130-146 | a lookup or listing error is passed through unchanged and no thread with the original text gives OriginalNotFound; none of these sends anything |
| Messages.SendReplyTarget | rest/messages.go:141-145 | when a thread matches, the calls are the lookup, the listing and one send to the looked-up room id; as written the send goes to the first listed thread, corrected to the first matching one |
| Messages.SendReplyMisdirects | rest/messages.go:141-144 | as written, whenever the first matching thread is not first in the list, the reply goes to a thread whose root text differs from the original message |
| Messages.SendReplyTwoThreadExample | rest/messages.go:141-146 | with threads T1 "hello" and T2 "world", replying to "world" goes to T1 as written and to T2 when corrected |
| Messages.SendReply | rest/messages.go:130-147 | the as-written method, with the loop and early return, produces the result and calls of SendReplyWith without the correction |
| Messages.SendReplyToMatch | rest/messages.go:130-147 | the corrected method produces the result and calls of SendReplyWith with the reply sent to the matched thread |
| Messages.HistoryUrl | rest/messages.go:154 | the history URL starts with the client's base URL followed by the channels.history endpoint |
| Messages.HistoryQueryRoundTrip | rest/messages.go:154-158 | the query reads back as the room id and the count, so "&count=n" is present if and only if a page was given, with n the page's Count (for room ids without '&') |
| Messages.GetMessages | rest/messages.go:153-168 | the URL, built by reassigning it when a page is given, is HistoryUrl; one channels.history call is made with it and its answer returned |

## Left out

- The realtime subscription engine. It is built on a background reader and Go channels; only its test is available, and concurrency is out of scope for a sequential model.
- HTTP transport and JSON. `Rocket.DoRequest` takes the transport's outcome (`exchange`) and the decoder (`decode`) as parameters. The other REST calls are single `Remote.Server` steps rather than passes through `DoRequest`.
- Request URLs and JSON bodies: only the channels.history URL is built and recorded. The other calls are recorded by their arguments (room name, room id, payload, channel name and text).
- `crypto/rand`: the 17 bytes are a `Rocket.RandomBlock` parameter. The ignored error of `rand.Read` is not modelled.
- Login: the session exchange is not part of this model. `Rocket.NewClient` takes its outcome as a parameter. On success the client is assumed to hold the returned session in `auth`.
- Logging: the login error logged every time (rest/rocket.go:57) and the request and response dumps when Debug is set (rest/rocket.go:74-76, 87-89).
- Locking: the cache has none, and the model is sequential.
- Exact error texts, including the `%s` with no argument at rest/thread_message.go:128. The model keeps only the error kind and the name it mentions. There, as in the code, the lookup's own error is dropped.
- `response.GroupInfoReply == nil` after a successful groups.info: a successful answer is assumed to carry a group (rest/messages.go:98, rest/thread_message.go:133).
- The `json.Marshal` and `http.NewRequest` failure exits of ThreadReply (rest/thread_message.go:102-109). Marshalling a payload of strings and a bool cannot fail. Request construction is not modelled.
- The ignored `http.NewRequest` errors (`_ = err` at rest/thread_message.go:74-75 and 124-125, rest/messages.go:70-71, 92-93, 102-103 and 123-124; `request, _ :=` at rest/messages.go:160). For a URL Go cannot parse (a non-numeric Port, a control character in a channel name or room id) the request is nil and `doRequest` panics at rest/rocket.go:70 or 78. The model records an ordinary call instead: it assumes every request URL is well formed.
- `ListThreadsInGroup` (rest/thread_message.go:73-82) and `ListGroupThread` (rest/messages.go:101-110): both are the single thread-listing step `Remote.Server.ThreadsList`.
- The package-level cache variable: it is one `ChannelIdCache` object, passed to the operations that use it.

## Findings

| source | as written | input that shows it | evidently intended | confidence | as-written member | corrected member |
|---|---|---|---|---|---|---|
| rest/messages.go:143 | once any thread's root text equals originalMsg, the reply is sent to `threadsList.Threads[0].ThreadId` | threads [T1 "hello", T2 "world"], originalMsg "world": the reply goes to T1 | reply in the thread that matched (T2), as rest/thread_message.go:65 does | not executed; high | Messages.SendReply, with Messages.SendReplyMisdirects and Messages.SendReplyTwoThreadExample | Messages.SendReplyToMatch, with Messages.SendReplyTarget |
