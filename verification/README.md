# A verified model of the MCP server

The repository is a small MCP server library in C: a tool registry, a JSON-RPC
dispatcher that builds its replies as cJSON trees, a stdio transport, and an
HTTP transport with one thread per connection that serves both Streamable HTTP
and the older HTTP+SSE protocol. This project models that code in Dafny and
proves what it keeps over every input, every interleaving of its threads and
every schedule of failing allocations.

## How the project is laid out

Concurrency (`src/mcp_http.c`, the session table and the streams)

- `Machine` is the step machine: any number of connection threads and the main
  thread, interleaved at every lock, unlock, atomic operation, list access,
  send, recv and close. A send may take any part of its bytes, none, or fail.
  `IsRun` is any run of any length from the initial state.
- `Lifetime` holds the inductive invariant `Inv` (who owns, counts, lists,
  locks and frees a session) and `LifetimeLaws` what it means.
- `Streams`, `StreamLaws`: the bytes on every stream, and what a client reads
  back by section 9.2.6 of the WHATWG HTML Standard (module `Sse`). `Openings`:
  what stands first on a stream. `WriteOrder`: units follow the holds of
  write_lock.
- `Acquiring`: which session a POST finds, and `ListOrder` the order it searches.
  `OwnerLaws`: the loop of a stream owner. `PosterLaws`: what a POST owes.
- `Posts`: the link from a POST to its event. `LateEvents`: which events are
  begun after a session was closed. `Shutdown`: the walk over the list.
- `DispatchOrder`: dispatch is a sequential run, whatever a dispatch computes;
  `DispatchLaws`: what that run is while memory lasts, and when it may not.
- `SessionList`: the linked list itself, on the heap.
- `Witnesses`: two runs of the step machine, step by step, that show behaviours
  described below.

HTTP framing (`src/mcp_http.c`, one connection)

- `Connections` (recv and send that may stop short, be interrupted or fail),
  `Headers` (end of the head, header lines), `Requests` (the head parsed in
  place), `Reception` (a whole connection), `Decimal` (Content-Length),
  `SessionId` (names and the query scan), `Responses`, `EventWriter`,
  `Delivery` (a client's POST arrives unchanged), `Routing` (which answer a
  request gets). `HeadReader` is a client's reading of a head, apart from the code
  that writes heads; `Responses` and `StreamHead` are proved against it.

Dispatcher, registry and stdio (`src/mcp_jsonrpc.c`, `src/mcp_server.c`,
`src/mcp_stdio.c`)

- `Protocol` is what the dispatcher computes while every allocation succeeds,
  as a function of the server; `ProtocolLaws` proves the JSON-RPC and MCP rules
  of that function over single messages and over whole runs, and `ReplyLaws` what
  a client reads in each reply, member by member.
- `Heap` is the allocator and the part of cJSON in use, as a contract with an
  arbitrary schedule of failures. A tree that has been added to another is no
  longer in `forest`; `failures` counts the calls that failed, so "no failure
  during this call" reads `heap.failures == old(heap.failures)`.
- `Replies`, `ToolResponses`, `ToolCalls`, `Dispatcher` are the C functions as
  methods over that heap, proved against `Protocol`; `Registry` is
  `mcp_server.c`; `Stdio` is the line loop, and `StdioLaws` what a client finds
  on stdout when allocations and writes fail.

A character stands for a byte. `Json`, `CStrings` are shared vocabulary.

## What the code does that a reader might not expect

- A lone CR in a request head ends the header loop early: later header lines
  are not seen. `Requests.ParseHead` and `Headers.StopsAtTheBlankLine` give the
  exact condition, both ways. A POST whose Content-Length stands behind such a
  CR is refused as one without a length (`Delivery.LengthBehindLoneCr`; one
  request, with and without the CR: `Delivery.NotSeenBehindLoneCr`,
  `Delivery.SeenBehindPlainLine`).
- A negative Content-Length is read modulo 2^64 and accepted when that lands in
  range: `Decimal.AcceptsNegative` says exactly when, and
  `Delivery.NegativeLengthIsTaken` has -18446744073709551615 taken for 1.
- On stdio, a line that does not parse can lose one JSON node: exactly when the
  reply object and the null id are made and adding the id fails
  (`Stdio.SendParseError`). No call that adds a member to the reply is checked,
  so the text that goes out may lack members: `Stdio.SendParseError` ties each
  member, and whether the text goes out, to the schedule of failures, and
  `Stdio.PartialReplyConforms` says exactly when the text is a JSON-RPC
  response. One failing call is enough to spoil it (`Stdio.OneFailure`).
- Nor is it checked whether that text could be written: the loop goes on behind a
  line that was cut, so that the next reply stands on the same line
  (`StdioLaws.CutLineGoesOn`). A reply to a message that cannot be written ends
  the run. So the output is whole lines and at most one cut line if and only if
  nothing is written behind a cut parse error reply (`StdioLaws.CleanExactly`,
  `StdioLaws.CleanOutput`).
- A message whose parsing runs out of memory is answered as a line that does not
  parse (`Stdio.ServeLine`).
- `initialize` sets its flag before the envelope is made, so a reply lost to
  memory still leaves the server initialized: the flag is set exactly when the
  eight allocating calls for the result succeed (`Dispatcher.HandleInitialize`).
  The flag is the server's, not the connection's, and is set by the request,
  not by the `notifications/initialized` message.
- A message without an id that is not a valid notification (no `jsonrpc` or no
  string `method`) is answered, with a null id; `ProtocolLaws.IsNotification`
  is what "notification" means below.
- A message event may be begun after `closed` was set (`Witnesses.EventAfterClose`
  is a run in which one is). The late events of a session are, at any time,
  exactly those of the posters that held write_lock past their check when `closed`
  was set and have gone on since (`LateEvents.LateEventsExactly`); there is at most
  one such poster, and a session that is closed while there is none never gets an
  event again (`LateEvents.OnePosterIsPastCheck`,
  `LateEvents.QuietWhenNoneIsPastCheck`).
- A session is listed before its response head is sent, so the event of a
  client that guesses its name can be the first thing on the stream
  (`Witnesses.GuessComesFirst` is such a run, for any name). This happens exactly
  when some POST began its event before a byte had been sent on the stream
  (`Openings.WhatComesFirst`), and never while no POST counts a session before
  that (`Openings.OpeningComesFirst`). Wherever the opening stands, what follows
  its head reads back as the endpoint event and the events completed since
  (`StreamLaws.StreamReadsBack`).

## Model

| member | source | states |
|---|---|---|
| Lifetime.RunInv | src/mcp_http.c:71-170 | in every reachable state of every run the lifetime invariant holds: owners, lock holders, reference counts, list and cursors agree |
| LifetimeLaws.NoUseAfterFree | src/mcp_http.c:111-170 | no step of any run touches a freed session, list neighbours included, and only the freeing thread touches one whose lock is destroyed |
| LifetimeLaws.WritesOnlyTouched | src/mcp_http.c:127-170 | a step writes no session but those it touches and the state of its own socket |
| LifetimeLaws.ReadsOnlyTouched | src/mcp_http.c:127-170 | a step does nothing that depends on the contents of a session it does not touch |
| LifetimeLaws.ExactRefcount | src/mcp_http.c:127-156 | refcount is one for an owner that has not released plus the number of posters between acquire and release |
| LifetimeLaws.EverythingFreedOnce | src/mcp_http.c:150-170 | no session is freed twice; when all connection threads are done the list is empty and every session was freed exactly once |
| LifetimeLaws.OneLockAtATime | src/mcp_http.c:129-169 | a thread holds at most one of the three kinds of lock and asks for none while it holds one, so waiting never forms a cycle |
| LifetimeLaws.LockHoldersNeverBlock | src/mcp_http.c:395-401 | whoever holds a lock can take its next step, whatever the environment does |
| LifetimeLaws.DestroyedWhenUnreachable | src/mcp_http.c:150-156 | a write_lock is destroyed only when nobody holds it, no other thread touches the session and none has a reference left |
| Streams.RunStreams | src/mcp_http.c:473-503 | the invariant behind the stream theorems holds in every reachable state |
| Streams.WholeUnitsThenOneCut | src/mcp_http.c:369-389 | the bytes of a stream are whole units in the order of the log followed by at most one unit cut short |
| StreamLaws.StreamReadsBack | src/mcp_http.c:463-503 | in every run a stream has at most one opening, and what follows its head, wherever that stands, reads back as the endpoint event and then exactly the completed events in the order of the log, keepalives invisible |
| StreamHead.StreamHeadIsRead | src/mcp_http.c:345-364 | a client reads the stream's head as status 200 with the type of an event stream, no caching, no length, and the name of its session |
| WriteOrder.LogFollowsLock | src/mcp_http.c:473-503 | in every run the completed units of a stream are those of some of the holds of its write_lock, each of another hold and in the order in which the lock was taken |
| Openings.WhatComesFirst | src/mcp_http.c:463-487 | in every run the first completed unit is not the opening if and only if some POST began its event before a byte had been sent on the stream |
| Openings.OpeningComesFirst | src/mcp_http.c:463-487 | while no POST counts a session before a byte of its stream was sent, a stream is its opening, whole or in part, and the events after it |
| Witnesses.GuessComesFirst | src/mcp_http.c:463-475 | for every name there is a run in which the event of a client that guessed it is the first unit on the stream |
| Sse.DecodeFrames | src/mcp_http.c:369-389 | whole frames and an unfinished one decode, by the WHATWG rules, to exactly the completed events |
| Sse.TruncationIsQuiet | src/mcp_http.c:369-389 | an unfinished frame dispatches nothing at the client |
| LateEvents.LateEventsExactly | src/mcp_http.c:591-595 | in every run, from the step that sets closed on, some late event of the session is by thread u if and only if u was a poster past its check at that step and no longer is |
| LateEvents.LateEventHasItsPoster | src/mcp_http.c:591-595 | every late event of every run is by a poster that was past its check when some step set closed |
| LateEvents.QuietWhenNoneIsPastCheck | src/mcp_http.c:591-595 | a session closed while no poster is past its check never gets a late event |
| LateEvents.OnePosterIsPastCheck | src/mcp_http.c:591-595 | at most one poster is past its check, and it holds the write_lock |
| Posts.AtMostOneLateEvent | src/mcp_http.c:586-600 | after closed is set at most one further message event is begun on the session |
| Witnesses.EventAfterClose | src/mcp_http.c:586-600 | for every name there is a run in which a message event is begun on a session that is already closed |
| Acquiring.AcquiredIsNamed | src/mcp_http.c:553-571 | in every run the session a POST has acquired bears the name the POST gave |
| Acquiring.FindsTheFirst | src/mcp_http.c:136-148 | in every run the search ends, still under g_sessions_lock, with the first listed session that has the name, or with none exactly when none has it |
| Acquiring.EventsAreNamed | src/mcp_http.c:553-596 | in every run each event begun and each message completed on a stream is by a POST that gave that session's name |
| ListOrder.NewestFirst | src/mcp_http.c:129-132 | in every run, of two listed sessions the one in front came into the list when the other was in it |
| PosterLaws.RepliesAreSent | src/mcp_http.c:573-601 | in every run a POST that gives its session back has begun its event; unless its body did not parse, its message had no reply, the reply could not be printed, or it found the session closed |
| PosterLaws.MessagesAreDispatched | src/mcp_http.c:571-626 | in every run a POST, legacy or not, whose body parses and that found its session goes on only after its dispatch took effect in the sequential order |
| Posts.OneEventPerPost | src/mcp_http.c:553-601 | a POST begins at most one message event, on the session it acquired |
| Posts.MessagesAreResponses | src/mcp_http.c:580-596 | every completed message event is the printed response of one POST to that session, and no POST has two |
| Shutdown.NoStreamMissesShutdown | src/mcp_http.c:488-518 | after the walk an owner that may wait in recv is marked closed with its socket shut down; any other is past its loop or bound to see g_shutdown |
| Shutdown.WalkTouchesLiveSessions | src/mcp_http.c:975-981 | every session the walk touches is unfreed, its lock undestroyed and its socket not yet closed |
| OwnerLaws.OwnerLeavesOnlyWhen | src/mcp_http.c:488-518 | in every run an owner leaves its loop only because g_shutdown or closed is set, recv returned the end of the stream or an error, or a send on its stream failed |
| OwnerLaws.LoopGoesOn | src/mcp_http.c:489-514 | in every run data and interrupts lead back to the head of the loop, a time-out to a keepalive, and only the end of the stream and errors out of it |
| OwnerLaws.LoopLooks | src/mcp_http.c:488-507 | in every run the looks at g_shutdown and closed, and a finished write, send the owner out exactly when the flag is set or the write failed |
| OwnerLaws.KeepaliveFollowsTimeout | src/mcp_http.c:500-508 | in every run, after a time-out, the owner is still asking for write_lock to send a keepalive, or has held it since for that |
| OwnerLaws.WritersFinish | src/mcp_http.c:473-507 | in every run a writer that gives write_lock back has completed its unit, the last on the stream and a message event if it is a poster, or a send failed, or it is a poster whose session was closed |
| OwnerLaws.OwnersCleanUp | src/mcp_http.c:516-519 | in every run an owner that has left its loop has closed its session, and one that is done its socket |
| Shutdown.OwnersRunOut | src/mcp_http.c:488-519 | over any run after g_shutdown is set the steps of an owner, sends of no byte apart, are bounded by its program point, its opening and the number of sessions |
| DispatchOrder.DispatchIsSequential | src/mcp_http.c:395-401 | whatever a dispatch computes, and be it different for each, every call takes effect once, at its place in the sequential run over all messages in lock order; the server state is the end of that run |
| DispatchLaws.DispatchIsProtocolRun | src/mcp_http.c:395-401 | while memory lasts that run is the run of the dispatcher: replies and final server are those of one dispatcher fed in lock order |
| DispatchLaws.ConcurrentRepliesConform | src/mcp_jsonrpc.c:273-327 | under any failing allocations every returned reply is a response for its own id, notifications get none, and a handler ran only behind an initialize request |
| DispatchLaws.ServerAfter | src/mcp_jsonrpc.c:120 | under any failing allocations the registry stays as it was, initialized is never cleared, and set only behind an initialize request |
| DispatchOrder.OrderRespectsRealTime | src/mcp_http.c:580 | a call that returned before another was made comes first in the sequential order |
| SessionList.Table.Insert | src/mcp_http.c:129-132 | the list is the new node followed by the old list |
| SessionList.Table.Acquire | src/mcp_http.c:136-148 | finds the first session with the id, or none exactly when there is none, and counts that one and no other once more |
| SessionList.Table.Unlink | src/mcp_http.c:158-170 | the list loses the first occurrence of the node and nothing else; no other field changes |
| SessionList.Table.Seek | src/mcp_http.c:161-168 | the pointer walk stops at the first occurrence, with the link that leads to it, or shows there is none |
| SessionList.UnlinkedIsGone | src/mcp_http.c:158-170 | after the splice the node is not met again and every other node still is |
| SessionId.GenSessionId | src/mcp_http.c:90-109 | with 16 random bytes the buffer holds their name and a NUL; with fewer it is untouched and the call fails |
| SessionId.NamesRoundTrip | src/mcp_http.c:103-106 | names of 32 hexadecimal digits and 16-byte values correspond one to one |
| SessionId.NameIsInjective | src/mcp_http.c:103-106 | two different 16-byte values never share a name |
| SessionId.ExtractSessionId | src/mcp_http.c:525-551 | the scan agrees on every path with: split the query on '&', take the first piece starting with sessionId=, keep 32 characters, reject if empty |
| SessionId.ScanQuery | src/mcp_http.c:532-550 | from any position the loop finds what the simple form finds in the rest of the query |
| SessionId.CopyValue | src/mcp_http.c:535-542 | copies the value up to '&', the end or 32 characters, and ends it with a NUL |
| SessionId.EndpointRoundTrip | src/mcp_http.c:479-480 | on the emitted endpoint path, with anything appended, the scan returns the session's own name |
| Connections.ReadFull | src/mcp_http.c:176-193 | over any short counts and interrupts: exactly the next n bytes, or an error and a connection that failed |
| Connections.WriteFull | src/mcp_http.c:195-209 | all of the data is on the wire, or a proper prefix of it and an error |
| Headers.Resume | src/mcp_http.c:228-236 | the scan resumed three bytes back finds what a scan of the whole buffer finds |
| Headers.ReadHeaders | src/mcp_http.c:211-241 | however recv splits the stream, the head ends just past its first CRLFCRLF; failure means none among the bytes taken and a full buffer or a failed connection |
| Headers.HeadEndIsLocal | src/mcp_http.c:231-235 | where the head ends depends on its own bytes, not on what follows |
| Headers.LinesCover | src/mcp_http.c:697-735 | the lines met and the rest are the whole head: nothing skipped, nothing twice |
| Headers.StopsAtTheBlankLine | src/mcp_http.c:699-706 | the loop stops at the blank line that ends the head if and only if the head has no CR without an LF |
| Headers.LinesOfJoin | src/mcp_http.c:697-735 | a head written line by line is cut into those lines |
| Headers.HeadEndOfJoin | src/mcp_http.c:228-236 | a head written line by line ends at its own blank line, whatever body follows |
| Requests.CiStartsWith | src/mcp_http.c:247-259 | compares the C string, case-insensitively, with the whole name, and never reads past its NUL |
| Requests.NoteLine | src/mcp_http.c:709-731 | one line in the buffer has the effect of its text: a Content-Length with a number, an Accept value cut to 255 bytes, or none |
| Requests.CutRequestLine | src/mcp_http.c:666-690 | the request line in the buffer yields the method and path of its text, with the same length limits |
| Requests.ParseFields | src/mcp_http.c:697-735 | the loop reads all lines of the head, changes no byte at or past its end, and says where it stops |
| Requests.ParseHead | src/mcp_http.c:661-735 | parsing in place with NULs gives the request of the original bytes; body bytes keep their values; the stop is hdr_end-2 exactly without a lone CR |
| Reception.ReadBody | src/mcp_http.c:784-805 | the body is exactly the next content_length bytes, part from the leftover, part read; or the connection failed |
| Reception.HandleConnection | src/mcp_http.c:652-861 | the reaction depends on the bytes of the stream alone, not on how recv cut them; a connection that fails is dropped and nothing is dispatched |
| Delivery.PostIsDelivered | src/mcp_http.c:778-856 | a POST whose last length field reads as that of its body is delivered with its path and exactly its body, whatever other fields or later bytes there are |
| Delivery.LengthBehindLoneCr | src/mcp_http.c:699-706 | a POST whose Content-Length stands only behind a line with a CR inside is answered 400, as one without a length |
| Delivery.SeenBehindPlainLine | src/mcp_http.c:697-735 | a request whose Content-Length stands behind a line without a CR has its body delivered |
| Delivery.NotSeenBehindLoneCr | src/mcp_http.c:699-706 | the same request with a CR inside that line is answered 400 |
| Delivery.NegativeLengthIsTaken | src/mcp_http.c:709-719 | a Content-Length of -18446744073709551615 has one byte of body delivered |
| Routing.RequestIsRouted | src/mcp_http.c:661-861 | every request written line by line gets the answer, the stream, the refusal or the delivery of its body that its method, path, Accept, length and the memory call for; one that is too long or cut short gets none |
| Routing.AcceptIsSeen | src/mcp_http.c:720-731 | the value of the last Accept field counts, without the blanks before it and up to 255 bytes of it |
| Routing.NoNumberIsIgnored | src/mcp_http.c:709-719 | a Content-Length without a digit leaves the length before it in force |
| Delivery.ClientReachesItsSession | src/mcp_http.c:553-571 | a client posting to the path of its endpoint event has its body delivered for its own session |
| Decimal.Print | src/mcp_http.c:316-325 | printing a size gives digits that stand for it |
| Decimal.ParsePrinted | src/mcp_http.c:316-325 | printing and strtoul are inverse on every size_t |
| Decimal.AcceptsExactly | src/mcp_http.c:714-719 | an all-digit field of any length is accepted exactly for the values 1 to 1048576 (section 8.6 of RFC 9110) |
| Decimal.AcceptsPrefix | src/mcp_http.c:714-719 | digits followed by other text count as the digits alone |
| Decimal.AcceptsNegative | src/mcp_http.c:714-719 | a negative field is accepted exactly when its negation modulo 2^64 is in range |
| Responses.SendResponse | src/mcp_http.c:311-336 | the head and body are on the wire, or a proper prefix after a failure; a head of 512 bytes or more is not sent at all; and what is on the wire, read by a client, has this status, reason, content type, length and body |
| Responses.HeadUnderstood | src/mcp_http.c:315-326 | for texts without a CR, a client reads the status line and the fields of the head as they were meant |
| Responses.BodyReadBack | src/mcp_http.c:315-326 | reading the response with the server's own rules gives back every body, whatever follows |
| EventWriter.WriteEvent | src/mcp_http.c:369-389 | six writes put one whole frame on the wire, or a proper prefix of it |
| EventWriter.WriteKeepalive | src/mcp_http.c:501-503 | the keepalive comment is whole, or cut short |
| ProtocolLaws.ExactlyOneAnswer | src/mcp_jsonrpc.c:273-327 | a valid notification gives no reply, no state change and runs nothing; every other message gets exactly one response with exactly one of result and error and the request's own id, if that is a string or a number, else null (JSON-RPC 2.0 sections 4.1 and 5) |
| ProtocolLaws.HandleFrame | src/mcp_jsonrpc.c:310-316 | a message changes at most initialized, and that only by initialize; tools run only on an initialized server |
| ProtocolLaws.FinalState | src/mcp_jsonrpc.c:120 | after any run the server differs at most in initialized, set exactly when some message was an initialize request |
| ProtocolLaws.RunAt | src/mcp_jsonrpc.c:273-327 | each outcome of a run is that of its message in the state the earlier ones lead to |
| ProtocolLaws.InitializedIsForever | src/mcp_jsonrpc.c:120 | over any run initialized never reverts |
| ProtocolLaws.NoHandlerBeforeInitialize | src/mcp_jsonrpc.c:317-319 | no handler runs unless an initialize request was handled earlier in the run |
| ProtocolLaws.OneReplyPerOwedMessage | src/mcp_jsonrpc.c:273-327 | over any run replies match the messages owed one, one to one and in order, each with its own id |
| ProtocolLaws.RegistrationKeepsNamesDistinct | src/mcp_server.c:112-114 | registering any tools in turn never yields two of one name |
| ReplyLaws.InitializeShows | src/mcp_jsonrpc.c:82-122 | a client reads the protocol version, the tools capability and the server's name and version in the reply |
| ReplyLaws.PingShows | src/mcp_jsonrpc.c:124-131 | a client reads an empty object, initialized or not |
| ReplyLaws.MalformedIsRefused | src/mcp_jsonrpc.c:278-292 | each kind of malformed message gets -32600 with its own message |
| ReplyLaws.RequestIsAnswered | src/mcp_jsonrpc.c:309-326 | each method gets its result, -32600 before initialize, or -32601 with its own name |
| ReplyLaws.OomShows | src/mcp_jsonrpc.c:87-90 | a client reads code -32603 and "oom" |
| ReplyLaws.CallIsAnswered | src/mcp_jsonrpc.c:178-213 | each kind of wrong params gets -32602, an unlisted name -32601, anything else a result |
| ProtocolLaws.ListShowsRegistry | src/mcp_jsonrpc.c:133-172 | tools/list shows every registered tool in order, with name, schema and those of title and description that it has, and changes nothing |
| ProtocolLaws.ListAndCallAgree | src/mcp_jsonrpc.c:174-213 | tools/call says "unknown tool" exactly for a name not listed; otherwise exactly the listed entry runs, once |
| ProtocolLaws.RunScriptTrace | src/mcp_server.c:162-193 | in the response a client finds the text of each add_text call, in call order |
| ProtocolLaws.CallReport | src/mcp_jsonrpc.c:203-266 | isError exactly when set_error was called or the code is non-zero; read item by item the content is all texts in order, in error preceded by the last message or a default |
| Heap.AddedIsThere | src/mcp_jsonrpc.c:52-58 | the pointer that adding a member returns leads to that member, so that more can be added to it there |
| Replies.AddChild | src/mcp_jsonrpc.c:52-58 | a new tree grows by one member, and the returned pointer is the one of that member |
| Registry.Create | src/mcp_server.c:24-40 | a ready server without tools that owns all that is new, or NULL with nothing left behind; NULL exactly when an allocation failed |
| Registry.Server.FindTool | src/mcp_server.c:66-76 | the index of the first tool with the name, or none |
| Registry.NewCapacity | src/mcp_server.c:84-87 | the doubling reaches the wanted size by no more doublings than needed, and stays 4 times a power of two |
| Registry.Server.Reserve | src/mcp_server.c:78-95 | room for the wanted slots with the same tools, or a failure that changes nothing |
| Registry.SchemaShows | src/mcp_server.c:116-131 | without a text of its own a tool takes any object; an own text is parsed |
| Registry.Server.AddTool | src/mcp_server.c:97-156 | success appends exactly this tool; duplicate, parse and memory failures leave the visible registry alone; nothing beyond the server's own memory is left behind; count <= cap <= max(4, 2 count), and all moves together are at most 2 count slots |
| Registry.MakeSlot | src/mcp_server.c:136-151 | the strings of a tool are copied, or everything made for it is freed |
| Registry.Server.Destroy | src/mcp_server.c:52-64 | frees each block and each tree of the server once, and nothing else |
| Registry.SlotApart | src/mcp_server.c:42-50 | the slots' pointers are pairwise apart, so freeing one slot leaves the others whole |
| Registry.SameTools | src/mcp_server.c:66-76 | the visible tools depend on the server's own memory only |
| Replies.CloneId | src/mcp_jsonrpc.c:9-24 | the new node is the id itself if that is a string or a number, else null |
| Replies.MakeEnvelope | src/mcp_jsonrpc.c:26-43 | one new tree with jsonrpc and id, or NULL and the forest as before, exactly when an allocation failed |
| Replies.MakeError | src/mcp_jsonrpc.c:45-60 | one new tree, the error reply, or NULL and nothing left behind |
| Replies.MakeResult | src/mcp_jsonrpc.c:62-76 | the result moves into the reply, or is freed with it |
| ToolResponses.Response.AddText | src/mcp_server.c:162-182 | on success a client finds the text in the last item; on failure the response is as before and the item is freed |
| ToolResponses.Response.SetError | src/mcp_server.c:184-193 | the flag is set and the old message freed even when the copy fails |
| ToolResponses.Response.Run | src/mcp_jsonrpc.c:213 | any handler, deciding by what its calls return, leaves the response its calls describe |
| ToolResponses.RunWithMemory | src/mcp_server.c:162-193 | with memory for every call the response is the one of the specification |
| ToolResponses.BuiltFromCalls | src/mcp_server.c:162-193 | under any failures a client finds in the content exactly the texts reported as added, in order, and the error is that of the last set_error if it was copied |
| ToolCalls.ErrorMessage | src/mcp_jsonrpc.c:232-238 | the message shown is the handler's unless missing or empty |
| ToolCalls.Prepend | src/mcp_jsonrpc.c:239-250 | a client finds the reason in the item in front of the content, or the response is unchanged and the item freed |
| ToolCalls.MakeCallResult | src/mcp_jsonrpc.c:224-266 | the response is used up on every path, and the result holds its content and flag |
| Dispatcher.HandleInitialize | src/mcp_jsonrpc.c:82-122 | the initialize reply or "oom" or NULL, with nothing left behind; the flag ends up set exactly when it was before or the eight calls that allocate for the result succeed |
| Dispatcher.HandlePing | src/mcp_jsonrpc.c:124-131 | an empty result, or "oom", or NULL |
| Dispatcher.MakeListing | src/mcp_jsonrpc.c:145-164 | one entry with its own copy of the schema, or NULL and nothing left behind |
| Dispatcher.MakeList | src/mcp_jsonrpc.c:137-170 | one entry for each registered tool, in order, or NULL and nothing left behind |
| Dispatcher.HandleToolsList | src/mcp_jsonrpc.c:133-172 | the list of the registry, or "oom", or NULL |
| Dispatcher.CallTool | src/mcp_jsonrpc.c:190-266 | the handler runs on these arguments, and content, error message and stand-in arguments are freed or moved on every path |
| Dispatcher.HandleToolsCall | src/mcp_jsonrpc.c:174-267 | errors, arguments and the run are those of the specification; a handler runs only where that says so |
| Dispatcher.HandleMessage | src/mcp_jsonrpc.c:273-327 | for every schedule of failures the forest changes by the returned reply and nothing else; with no failure reply, state and handler run equal the specification |
| Dispatcher.EveryReplyConforms | src/mcp_jsonrpc.c:26-76 | every reply that is possible under any failures is a response object for the request's id, and notifications never get one |
| Dispatcher.ReplyShowsId | src/mcp_jsonrpc.c:9-43 | under any failures a reply shows the request's own id if that is a string or a number, else null |
| Dispatcher.DifferentIdsDifferentReplies | src/mcp_jsonrpc.c:9-43 | under any failures requests with different strings or numbers as ids get replies with different ids |
| Dispatcher.CallReplyShows | src/mcp_jsonrpc.c:174-267 | under any failures the reply to a call whose handler ran is "oom", or shows the texts accepted and, in error, the reason |
| Stdio.TrimLine | src/mcp_stdio.c:60-62 | the buffer holds the line without its trailing CRs and LFs |
| StdioLaws.TrimTakesLineEnds | src/mcp_stdio.c:60-62 | trimming takes off all CRs and LFs at the end and nothing else |
| StdioLaws.LinesAreTheInput | src/mcp_stdio.c:47 | the lines are the whole input, cut behind every newline and nowhere else |
| StdioLaws.BlankIsSkipped | src/mcp_stdio.c:60-65 | a line of CRs and LFs only changes nothing |
| StdioLaws.ParseErrorShows | src/mcp_stdio.c:68-85 | the answer to a line that does not parse is a response with id null, code -32700 and "parse error" |
| StdioLaws.ServeAnswers | src/mcp_stdio.c:60-99 | without failures every line but blank ones and notifications is answered, in order, a message by a response for its id and any other by the parse error |
| Stdio.WriteMessage | src/mcp_stdio.c:11-31 | what is written is what the schedule leaves of the line, and the text is freed; it succeeds exactly when nothing failed |
| Stdio.AddNullId | src/mcp_stdio.c:73-76 | a node is lost exactly when it is made and adding it fails |
| Stdio.SendParseError | src/mcp_stdio.c:68-85 | which members the reply has, what of its text goes out and whether the null id is lost are exactly what the two schedules of failures say |
| Stdio.PartialReplyConforms | src/mcp_stdio.c:70-81 | the reply to a bad line is a response object exactly when no add failed |
| Stdio.OneFailure | src/mcp_stdio.c:70-82 | when one call alone fails, not the one that makes the reply, the reply is a response object exactly if that call comes after the last add |
| Stdio.DispatchMessage | src/mcp_stdio.c:88-89 | whatever fails the outcome is one that the dispatcher may have, the message is freed and only the reply is new; without failures it is the specification's |
| Stdio.ServeMessage | src/mcp_stdio.c:88-99 | the message and its reply are both freed, and the output is the reply of the outcome, whole or what a failed write left of it, whatever fails; false exactly when that write failed |
| Stdio.ServeLine | src/mcp_stdio.c:67-99 | one turn: the answer to a line that does not parse is a function of the schedules; a line that parses is refused only when memory ran out; only a failed reply to a message ends the loop |
| Stdio.RunStdio | src/mcp_stdio.c:45-104 | under any failures the output and the server are what a turn for each line in order makes them, up to the first reply to a message that could not be written, and all memory is given back but single null nodes, no more of them than failed allocations; without failures they are the sequential specification's |
| StdioLaws.TurnConforms | src/mcp_stdio.c:67-99 | in every turn the reply to a message is a response for its id, and the reply to a refused line is one exactly when it is the whole parse error reply |
| StdioLaws.CleanOutput | src/mcp_stdio.c:16-26 | when nothing is written behind a cut line the output is the whole replies, one a line, and at most one part of a line |
| StdioLaws.CleanExactly | src/mcp_stdio.c:82-97 | in every run that is so if and only if nothing is written behind a cut parse error reply |
| StdioLaws.CutLineGoesOn | src/mcp_stdio.c:82-85 | two refused lines, the first write of the first answer failing after one byte, leave that byte and the second answer on one line |
| Stdio.ServeEndsAsRun | src/mcp_stdio.c:67-89 | bad lines do not change the state: the server ends as after the messages alone |
| Stdio.ServeIsRun | src/mcp_stdio.c:88-99 | when every line parses the loop is a fold of the dispatcher |
| Stdio.SplitRecovers | src/mcp_stdio.c:16-26 | cutting the output at newlines gives back the replies, one by one |

## Left out

- The threads are modelled as a step machine on values, not as classes with
  methods: interleaving at single steps is not something a method can express.
  The list those steps work on is also given as a heap structure, in
  `SessionList`. Steps are sequentially consistent.
- The cJSON parser, printer and number formatting: parse and print are
  arbitrary functions, print being assumed to put no CR or LF in a text.
  Ownership and lookup are the contract in `Heap`, with one failure decision
  for each call and interior items named by their path from the root.
- Handlers that call back into the server or add tools while they run: in the
  dispatcher a handler is any adaptive sequence of add_text and set_error calls
  and a return code. `DispatchOrder` makes no assumption about handlers.
- Socket set-up, accept, socket options, real time-outs, signal installation,
  the quality of /dev/urandom, and getline's own buffer.
- Reuse of descriptor numbers and destroying the server while detached threads
  run: the code does not order these, and no property depends on them.
- Overflow of the size computed for realloc, and of counters.
- Endless interrupts or sends that take no byte for ever: no claim that a run
  ends then.
- The landing page, the keepalive stream of GET /mcp, the answer of POST /mcp
  over SSE, logging, examples and tests.
- Reception.HandleConnection: stops at the choice of the answer; the text of the
  canned answers is not modelled.
- Responses.SendResponse: the status code is not negative, as in every call.
- Openings.OpeningComesFirst: assumes that no POST counts a session before a
  byte of its stream has been sent; WhatComesFirst needs no such assumption.
