# RabbitServer: a verified model

RabbitServer is a reactor HTTP server in the style of muduo: one event loop per
thread, connections handed round the loops, a line parser on a sliding buffer. This
project models its four hard parts and proves what they are for.

- **Event loops across threads** (`EventLoop.dfy`, `EventLoopThread.dfy`,
  `ThreadPool.dfy`): the functor queue with its eventfd, the start and stop
  handshake, the choice of loop. Mutex sections and single system calls are the
  atomic steps; everything between them interleaves.
- **A connection's life** (`Channel.dfy`, `TcpConnection.dfy`, `TcpServer.dfy`,
  `Removal.dfy`, `Teardown.dfy`): the output stream, closing, and the removal chain
  io loop, base loop, io loop, for any number of connections and loops; that the
  chain comes to its end; and the system of server and connections as a whole.
- **HTTP on a buffer** (`Text.dfy`, `Buffer.dfy`, `HttpRequest.dfy`,
  `HttpContext.dfy`, `HttpGrammar.dfy`, `HttpRoundTrip.dfy`, `HttpResponse.dfy`,
  `HttpServer.dfy`, `HttpConversation.dfy`, `ClientView.dfy`): from bytes in to bytes
  out, for any way the network cuts and delays them; which lines are understood, and
  which connections stay.
- **Timers** (`TimerQueue.dfy`): deadline order and conservation over whole runs.

Each file has two layers. A specification on values says what an operation does and
carries the theorems. A class with the fields of the original does it step by step,
and its methods are proved against the specification: `View()` of the object after
the call is the specification applied to `View()` before.

In the runs, poll results and the return values of `write` and `readv` are arbitrary
legal values, carried by the events. The clock is monotone and in whole microseconds.

## Where the code falls short of its intent

Six properties do not hold of the code in full. The model keeps the code's
behaviour, and a lemma says exactly when the property does hold.

- `Buffer` measures room by `capacity()`. Bytes written beyond `size()` are lost at the
  next reallocation (`AppendKeepsBytes`, `ReadKeepsBytes`, `DoublingLosesBytes`). The
  HTTP and connection modules assume the two are equal.
- `handleHup` has no state guard. A hang-up after the close leads to a failed assert
  in the map lookup, always and only then (`LateHangUpIsFatal`, `LateHangUpHappens`).
- A refused request line stays in the buffer and its method in the context. If the
  refusal cannot be written at once the connection goes on reading, and the next
  blank line trips the assert of `setMethod` (`CrashesIff`, `WireDecidesCrash`).
- `append(const std::string &)` takes the size as an `int`. A response of 2^31 bytes
  or more does not arrive whole (`ResponseRoundTrip`, `PutExact`). The 32-byte scratch
  array would cut Content-Length only from 10^13 on (`ScratchHolds`).
- A repeating timer is dropped and leaked if the clock passes its new deadline before
  `addTimer` looks; with a truncated interval of 0 seconds one microsecond is enough
  (`RearmedIff`, `RepeaterLost`).
- `stop` before the loop is entered fails the assert at its head (`EarlyStopAborts`,
  `EarlyStopHappens`).

Where comments or names promise something else, the model follows the code: any header
line without a colon ends the headers, not only the blank one, although the comment
there speaks of the empty line; `swap` does not exchange the version.

## Model

| member | source | states |
|---|---|---|
| Buffers.BufferIsQueue | net/Buffer.cpp:25-127 | Over any run of `append`, `retrieve` and `readFd` in which no step reallocates while live bytes lie beyond the size, whatever the allocator adds, the readable bytes are those of a byte FIFO, through in-place compaction and growth |
| Buffers.StepIsQueue | net/Buffer.cpp:25-127 | The same for one operation |
| Buffers.BufferSpaceBound | net/Buffer.cpp:13-52 | With an allocator that adds nothing every run is of that kind, and the block never exceeds the larger of its first size and twice the peak of live plus incoming bytes |
| Buffers.ExactStep | net/Buffer.cpp:25-52 | Then the block grows only when live plus incoming bytes reach its size |
| Buffers.PutExact | net/Buffer.cpp:54-57 | Strings appended one after the other arrive whole if and only if all together are smaller than 2^31 bytes, the size being passed as an `int` |
| Buffers.Buffer.AppendString | net/Buffer.cpp:54-57 | The narrowed length, which of the bytes arrive, and when the call is undefined |
| Buffers.NarrowWraps | net/Buffer.cpp:54-57 | The length passed is the one `int` that agrees with the size modulo 2^32 |
| Buffers.AppendKeepsBytes | net/Buffer.cpp:25-52 | Where the vector's size and capacity differ: `append` is a queue append for all contents of the live window if and only if it does not reallocate while live bytes lie beyond the size |
| Buffers.ReadKeepsBytes | net/Buffer.cpp:103-127 | `readFd` is a queue append if and only if the bytes fit the first segment or size equals capacity |
| Buffers.DoublingLosesBytes | net/Buffer.h:42-45 | Four appends, with an allocator that doubles the block, after which bytes are lost |
| Buffers.Buffer.Resize | net/Buffer.cpp:38 | A reallocation keeps exactly the live bytes below the vector's size; the rest reads as NUL |
| Buffers.Buffer.Compact | net/Buffer.cpp:32-34 | The overlapping copy onto the front of the same block leaves the readable bytes as they were and the read index at 0 |
| Buffers.Buffer.EnsureWritable | net/Buffer.cpp:25-41 | Room for `len` bytes afterwards; the state is the one of the specification, which moves to the front, reallocates or does nothing |
| Buffers.Buffer.CopyIn | net/Buffer.cpp:49 | The bytes stand right behind the readable ones, which are unchanged |
| Buffers.Buffer.Append | net/Buffer.cpp:43-52 | The state after `append` for any allocator, in the terms about which the queue lemmas speak |
| Buffers.Buffer.Retrieve | net/Buffer.cpp:64-75 | The window is that of a prefix drop, the return value how many bytes went |
| Buffers.Buffer.RetrieveUntil | net/Buffer.cpp:138-144 | Drops exactly the bytes before `end` |
| Buffers.Buffer.ReadFd | net/Buffer.cpp:103-127 | Two-segment read for any amount delivered, and for errors, which leave the buffer alone |
| Buffers.Buffer.FillUp | net/Buffer.cpp:122 | With the first segment full the window ends at the vector's size, not at its capacity |
| Buffers.Buffer.FindCrlf | net/Buffer.cpp:129-136 | The first CRLF wholly inside the readable bytes, or none |
| Text.CrlfStable | net/Buffer.cpp:129-136 | Bytes that arrive later never move a CRLF already found |
| HttpRequests.MethodName | HTTP/HttpRequest.h:71-95 | The printed name of a method is recognised as that method |
| HttpRequests.HttpRequest.SetMethod | HTTP/HttpRequest.h:37-66 | The method named by the token, case-sensitively; false exactly for unknown ones, which leave the request invalid |
| HttpRequests.HttpRequest.AddHeader | HTTP/HttpRequest.h:119-133 | The loops trim the value on both sides, never across the line, and the last header of a name wins |
| HttpRequests.HttpRequest.SkipSpaces | HTTP/HttpRequest.h:122-126 | The left trimming loop stops at the first byte that is no blank |
| HttpRequests.HttpRequest.Swap | HTTP/HttpRequest.h:149-156 | What is exchanged and what is not: the version stays, the receive time is copied one way |
| Text.TrimAfterBlank | HTTP/HttpRequest.h:122-131 | A trimmed value behind one blank is read back unchanged |
| HttpContexts.ChunkIndependence | HTTP/HttpContext.cpp:51-110 | From either parsing state, for any cut of the input, also between CR and LF: feeding the pieces gives the verdict, state, request (except receive time) and leftover bytes of parsing the whole |
| HttpContexts.SplitOnce | HTTP/HttpContext.cpp:51-110 | The same for one cut |
| HttpContexts.TimeIrrelevant | HTTP/HttpContext.cpp:65 | The receive time influences nothing but its own field |
| HttpContexts.GateDecides | HTTP/HttpContext.cpp:51-110 | From rest, input that ends in CRLFCRLF is either rejected, leaving the input, or completes a request; the loop never waits and the assert of `setMethod` holds |
| HttpContexts.GateHeaders | HTTP/HttpContext.cpp:80-103 | In the header state such input always completes the request |
| HttpContexts.ResetIsFresh | HTTP/HttpContext.h:36-41 | Although `swap` leaves the version behind, a completed request never shows it |
| HttpContexts.RejectedAtOnce | HTTP/HttpContext.cpp:57-74 | Only the first line can be refused, and a refusal leaves the whole input in the buffer |
| HttpContexts.ParsingAfterRejection | HTTP/HttpContext.cpp:57-74 | After a refusal the next parse trips the assert of `setMethod` if and only if the refused line had named a known method; otherwise it refuses again and changes nothing |
| HttpContexts.HttpContext.Reset | HTTP/HttpContext.h:36-41 | Back at rest, with the old version |
| HttpContexts.HttpContext.ProcessRequestLine | HTTP/HttpContext.cpp:7-48 | On the real fields: verdict and all fields, also those a refused line has already set |
| HttpContexts.HttpContext.TakeRequestLine | HTTP/HttpContext.cpp:62-73 | One request line through the loop |
| HttpContexts.HttpContext.TakeHeaderLine | HTTP/HttpContext.cpp:85-96 | One header line; any line without a colon ends the headers |
| HttpContexts.HttpContext.TakeLine | HTTP/HttpContext.cpp:57-103 | One pass of the loop leaves the final outcome the same and shortens the input |
| HttpContexts.HttpContext.ParseRequest | HTTP/HttpContext.cpp:51-110 | The loop on the real buffer ends, with the outcome of the line-by-line specification |
| HttpRoundTrip.RequestRoundTrip | HTTP/HttpContext.cpp:7-110 | Any well-formed request, rendered as sections 3 and 5 of RFC 9112 say and followed by any bytes, parses back to the same method, path, query, version and header map and leaves exactly those bytes, also in a context that served requests before |
| HttpRoundTrip.RequestSurvivesChunks | HTTP/HttpContext.cpp:51-110 | The same for every cut of the bytes |
| HttpRoundTrip.FieldsParse | HTTP/HttpContext.cpp:80-103 | A header block and any tail: the header map is collected field by field, the tail stays |
| HttpRoundTrip.FieldLineParses | HTTP/HttpContext.cpp:85-89 | One printed field is read back as its name and value |
| HttpRoundTrip.CollectDistinct | HTTP/HttpRequest.h:132 | With distinct names the map holds exactly the fields |
| HttpRoundTrip.RequestLineSplits | HTTP/HttpContext.cpp:7-48 | Three words with two blanks between are seen as exactly those words |
| HttpRoundTrip.TargetSplits | HTTP/HttpContext.cpp:18-27 | Path and query are separated where they were joined, the query keeping its `?` |
| HttpGrammar.LineAcceptedIff | HTTP/HttpContext.cpp:7-48 | With no method set, a line is accepted if and only if it is one of the five literal names, a blank, a target without blank, a blank, and the literal HTTP/1.1 or HTTP/1.0; every other line is rejected |
| HttpGrammar.FormAccepted | HTTP/HttpContext.cpp:7-48 | The request then has the verb and version these literals name, and path and query are the target cut before its first `?` |
| HttpGrammar.RefusedNames | HTTP/HttpContext.cpp:12 | A refused line leaves a method behind if and only if it starts with one of the five names and a blank |
| HttpGrammar.FirstLineDecides | HTTP/HttpContext.cpp:51-110 | From rest, input that ends in CRLFCRLF is accepted if its first line has that form, and otherwise rejected with everything left in the buffer |
| HttpGrammar.RequestSays | HTTP/HttpContext.cpp:51-110 | An accepted request has the verb, version and target of its first line and the receive time, whatever headers follow |
| HttpGrammar.HeaderLineSays | HTTP/HttpRequest.h:119-133 | A header line is its name up to the first colon, blanks, a value, blanks; name and value go into the map, and nothing else changes |
| HttpGrammar.HeaderLineSplits | HTTP/HttpRequest.h:119-133 | Every line with a colon is of that kind |
| HttpGrammar.ColonlessLineEnds | HTTP/HttpContext.cpp:85-96 | A line without a colon completes the request as it is |
| HttpResponses.ResponseRoundTrip | HTTP/HttpResponse.cpp:8-37 | The buffer holds exactly the response, if and only if it is smaller than 2^31 bytes; read from the header state it then gives back Connection and Content-Length overridden by `headers_` and leaves exactly the body |
| HttpResponses.ResponseParses | HTTP/HttpResponse.cpp:8-37 | The same for the bytes themselves |
| HttpResponses.ContentLengthIsBodySize | HTTP/HttpResponse.cpp:22 | The Content-Length a client reads, as a number, is the size of the body it then finds |
| HttpResponses.StatusLineSays | HTTP/HttpResponse.cpp:10-14 | The status line is the code in decimal, whole for every non-negative `int`, and the message |
| HttpResponses.ConnectionIsTold | HTTP/HttpResponse.cpp:16-25 | A client reads `Connection: close` or `Keep-Alive` as the flag says, and a Content-Length if and only if it is kept |
| HttpResponses.ScratchHolds | HTTP/HttpResponse.cpp:10-24 | What `snprintf` leaves in 32 bytes is the whole length line if and only if the number is below 10^13 |
| HttpResponses.WholeFieldsPrinted | HTTP/HttpResponse.cpp:16-25 | The lines printed are the server's own headers |
| HttpResponses.PiecesConcat | HTTP/HttpResponse.cpp:10-36 | Status line, own headers, all of `headers_`, blank line and body, in this order |
| HttpResponses.HttpResponse.AppendToBuffer | HTTP/HttpResponse.cpp:8-37 | On the real buffer: the pieces of the specification one after the other, for every order in which the map may iterate |
| HttpResponses.HttpResponse.AppendFields | HTTP/HttpResponse.cpp:27-33 | All headers, in order |
| HttpResponses.CollectOverrides | HTTP/HttpResponse.cpp:27-33 | In whatever order the map iterates, its headers override what was printed before |
| Text.DecimalValue | HTTP/HttpResponse.cpp:22 | Decimal digits denote the number they were printed from |
| Text.DecimalLength | HTTP/HttpResponse.cpp:22 | At most k digits if and only if below 10^k |
| Channels.Channel.Update | net/Poller.cpp:52-72 | Afterwards epoll holds exactly the channel's mask, whether it was new or known |
| Channels.Channel.EnableReading | net/Channel.h:48-52 | Read interest on, in epoll too; mask, writing flag and kernel copy agree |
| Channels.Channel.EnableWriting | net/Channel.h:53-58 | Write interest and the writing flag on, in epoll too |
| Channels.Channel.DisableWriting | net/Channel.h:59-64 | Write interest and the writing flag off, in epoll too |
| Channels.Channel.DisableAll | net/Channel.h:70-75 | An empty mask, which stays registered |
| Channels.Channel.Remove | net/Channel.cpp:70-74 | Out of epoll, and new again, from any state |
| TcpConnections.RunKeeps | net/TcpConnection.cpp:47-228 | Over any interleaving of sends, write events, close requests, hang-ups and partial, EAGAIN or failed writes: accepted bytes are written bytes and then the output buffer; while the connection is open it is writing exactly when bytes wait and epoll agrees; the state only moves forward |
| TcpConnections.StepKeeps | net/TcpConnection.cpp:47-228 | The same for one event; a disconnected connection accepts and writes nothing more |
| TcpConnections.SentKeeps | net/TcpConnection.cpp:154-184 | The same for `sendInLoop` |
| TcpConnections.FlushedKeeps | net/TcpConnection.cpp:186-216 | The same for `handleWrite` |
| TcpConnections.WireConserves | net/TcpConnection.cpp:139-216 | The wire is built from the events alone, as the first max(result, 0) bytes offered by each call of `write`: over any run from a new connection the wire and then the output buffer are, byte for byte and in order, what was handed to `send` while connected |
| TcpConnections.RunWires | net/TcpConnection.cpp:139-216 | So `written` and `accepted` are what went over the wire and what was handed in, from any state that runs reach |
| TcpConnections.SendBuffersRest | net/TcpConnection.cpp:154-184 | For every result of `write`: a send with nothing waiting buffers exactly the bytes the socket did not take, one behind waiting bytes all of its own; write interest is on exactly when something waits |
| TcpConnections.WriteDropsTaken | net/TcpConnection.cpp:186-216 | For every result: a write event drops exactly what the socket took off the front |
| TcpConnections.CloseDrains | net/TcpConnection.cpp:111-216 | A close reached from `closeConnectionInLoop` or `handleWrite` leaves nothing unwritten; any other close has written everything if and only if nothing was waiting |
| TcpConnections.PoliteRunDrains | net/TcpConnection.cpp:111-216 | On every run without peer close, hang-up or destruction, a connection that has closed has written every byte it ever accepted |
| TcpConnections.DisconnectingDrains | net/TcpConnection.cpp:118-216 | Once a close is pending each productive write shortens what is unsent and nothing lengthens it; after as many as there are bytes the connection has closed with everything written |
| TcpConnections.TcpConnection.ConnectionEstablish | net/TcpConnection.cpp:66-77 | Connected, with read interest registered |
| TcpConnections.TcpConnection.HandleClose | net/TcpConnection.cpp:79-89 | Closes and reports once; nothing in any other state |
| TcpConnections.TcpConnection.ConnectionDestroyed | net/TcpConnection.cpp:92-102 | Disconnected and out of epoll |
| TcpConnections.TcpConnection.HandleHup | net/TcpConnection.cpp:224-228 | Destroys and reports, in any state |
| TcpConnections.TcpConnection.CloseConnection | net/TcpConnection.cpp:111-116 | Queues one close functor, unless closing already |
| TcpConnections.TcpConnection.CloseConnectionInLoop | net/TcpConnection.cpp:118-132 | Closes at once if nothing waits, otherwise leaves the close to `handleWrite` |
| TcpConnections.TcpConnection.Send | net/TcpConnection.cpp:139-152 | Accepts the bytes while connected and ignores them otherwise |
| TcpConnections.TcpConnection.SendInLoop | net/TcpConnection.cpp:154-184 | Every byte goes to the socket or behind the output buffer, on the real buffer and channel |
| TcpConnections.TcpConnection.HandleWrite | net/TcpConnection.cpp:186-216 | What the socket took leaves the buffer; the last byte turns write interest off and completes a pending close |
| TcpConnections.TcpConnection.HandleRead | net/TcpConnection.cpp:47-64 | New bytes join the input; no bytes mean close; an error changes nothing |
| TcpServers.NamesDistinct | net/TcpServer.cpp:56-58 | Two connections of a server never share a map key |
| TcpServers.LifecycleSafe | net/TcpServer.cpp:53-116 | Over every run of any number of connections and loops whose hang-ups come while the connection is open: neither assert fails, each connection is erased and destroyed at most once, and it is at exactly one stage: in use, to be erased, to be destroyed, to be dropped, gone |
| TcpServers.StepKeeps | net/TcpServer.cpp:53-116 | Every step of any loop keeps the invariant behind this |
| TcpServers.ExecStage | net/TcpServer.cpp:78-116 | Running a queued functor moves its connection exactly one stage on and no other connection at all |
| TcpServers.CloseSound | net/TcpConnection.cpp:79-89 | Closing an open connection starts the chain: to be destroyed on the base loop, to be erased from any other |
| TcpServers.HangUpSound | net/TcpConnection.cpp:224-228 | A hang-up in time destroys the connection and either erases it from the map at once, on the base loop, or queues exactly one lookup that will |
| TcpServers.RunForward | net/TcpConnection.cpp:79-132 | States only move forward, over any run, late hang-ups included |
| TcpServers.NoDanglingChannel | net/Channel.cpp:23-39 | Each channel in epoll or still to be handled from the last poll belongs to a connection held by the map, a queued functor or the guard |
| TcpServers.NoDanglingOverRuns | net/Poller.cpp:41-85 | The same in every state of every run whose hang-ups come in time |
| TcpServers.LateHangUpIsFatal | net/TcpConnection.cpp:224-228 | In every state that runs with timely hang-ups reach: one more hang-up, followed by what is queued for the base loop, fails an assert of the map lookup if and only if the connection had been closed before it |
| TcpServers.LateHangUpHappens | net/TcpServer.cpp:108-116 | A run from the start that reaches the failing assert: peer close, another poll, hang-up |
| Removals.TeardownCompletes | net/TcpServer.cpp:72-116 | However and on whatever loop a connection has closed: once the base loop and then its own have each finished two more batches it is gone, erased from the map and out of epoll |
| Removals.StageServed | net/EventLoop.cpp:148-163 | A stage of the removal chain is left after as many batches of its loop as its functor needs, at most two |
| Removals.ClosedStays | net/TcpConnection.cpp:79-132 | Nothing but its own functors moves a closed connection |
| Teardowns.ConnectionsSafe | net/TcpServer.cpp:53-116 | Over every run of the whole system, server and connections with their buffers and channels, on any loops, the base loop included, with hang-ups in time: the server goes through one of its own runs, no assert fails, and every connection is erased and destroyed at most once, at exactly one stage, held while epoll knows it, with its output stream intact |
| Teardowns.StepKeeps | net/TcpConnection.cpp:79-228 | Every member function a connection runs, with the callbacks it makes and the functors it queues, is one step of the server or none, and keeps connection and record together |
| Teardowns.TaskPossible | net/TcpConnection.cpp:111-132 | As many close functors are queued as the connection has asked for |
| TcpServers.TcpServer.NewConnection | net/TcpServer.cpp:53-70 | A connected, registered connection in the map under a new number |
| TcpServers.TcpServer.Erase | net/TcpServer.cpp:82-84 | The lookup, which fails exactly when the key is gone, and the erasure |
| TcpServers.TcpServer.RemoveConnection | net/TcpServer.cpp:72-76 | At once on the base loop, queued for it otherwise |
| TcpServers.TcpServer.RemoveConnectionInLoop | net/TcpServer.cpp:78-88 | Erased and its destruction queued on its own loop |
| TcpServers.TcpServer.HandleClose | net/TcpConnection.cpp:79-89 | The close of a connection with its report to the server |
| TcpServers.TcpServer.ConnectionDestroyed | net/TcpConnection.cpp:92-102 | Disconnected, out of epoll, one destruction more |
| TcpServers.TcpServer.HandleHup | net/TcpConnection.cpp:224-228 | Destruction and the report, without a look at the state |
| TcpServers.TcpServer.CloseConnectionInLoop | net/TcpConnection.cpp:118-132 | Close now, later or not at all |
| TcpServers.TcpServer.RunFunctor | net/EventLoop.cpp:158-161 | One turn of the loop over `toRun` |
| HttpConversations.ServesConversation | HTTP/HttpServer.cpp:49-89 | Any sequence of requests, cut and timed in any way, with partial, failed and delayed writes and the close functors in between: the answers up to and including the first that closes are accepted, once each and in order, and nothing else ever is; written and waiting bytes are together what was accepted; once the connection is down all of it has been written |
| HttpConversations.WireOnlyEndsReading | HTTP/HttpServer.cpp:49-89 | For any input, well-formed or not: parser, answers and failed asserts are those of the arrivals read, which are all that were offered until a close is asked for; after that the socket decides only how many more are read |
| HttpConversations.CrashesIff | HTTP/HttpServer.cpp:49-73 | Over any rounds of a connection, peer closes included, an assert fails if and only if the first refused request names a known method, output still waits when the close functor behind the refusal has run, and bytes read later complete a blank line |
| HttpConversations.WireDecidesCrash | HTTP/HttpServer.cpp:57-61 | From a new connection, the same bytes over the same rounds: the refusal written whole closes the connection, the refusal not written lets the next blank line fail the assert |
| HttpConversations.NoCrashBeforeRejection | HTTP/HttpServer.cpp:49-73 | Up to the first refused request no assert fails and the parser is at rest between messages |
| HttpConversations.TurnKeepsConn | net/TcpConnection.cpp:111-132 | A refusal is followed by its close in the same round |
| HttpConversations.PrefixWaits | HTTP/HttpServer.cpp:52-72 | No proper prefix of a well-formed request passes the gate |
| HttpConversations.ReadsRequest | HTTP/HttpServer.cpp:49-89 | A request that arrives in any pieces is answered once, when its last byte is there, and the handler sees exactly that request |
| HttpConversations.ClosingAnswerDelivered | HTTP/HttpServer.cpp:75-89 | On every later run without abrupt events that ends with the connection closed, the whole answer is on the wire, right behind everything accepted before |
| ClientViews.KeptAsAsked | HTTP/HttpServer.cpp:75-89 | With a callback that leaves the flag alone, any request in text, in any pieces over any rounds of a new session: the connection stays if and only if the version is 1.1 and the last Connection field is not `close`, or it is 1.0 and that field is `Keep-Alive` |
| ClientViews.Plain11Stays | HTTP/HttpServer.cpp:77-80 | `GET / HTTP/1.1` without fields: kept |
| ClientViews.Plain10Closes | HTTP/HttpServer.cpp:77-80 | `GET / HTTP/1.0` without fields: closed |
| ClientViews.AskedToClose11 | HTTP/HttpServer.cpp:77-80 | 1.1 with `Connection: close`: closed |
| ClientViews.AskedToClose10 | HTTP/HttpServer.cpp:77-80 | 1.0 with `Connection: close`: closed |
| ClientViews.AskedToKeep10 | HTTP/HttpServer.cpp:77-88 | 1.0 with `Connection: Keep-Alive`: kept |
| ClientViews.ReplyMeans | HTTP/HttpServer.cpp:75-83 | From the fields of the request alone: the flag the callback finds in its empty response, and that the answer sent is its response, printed, with its flag |
| ClientViews.RefusedGets400 | HTTP/HttpServer.cpp:57-61 | A first line that is no request line: the client gets the 400 and nothing more, and the connection is closing, whatever comes later |
| ClientViews.SilentUntilBlank | HTTP/HttpServer.cpp:52-72 | As long as what has arrived nowhere completes a blank line, over any rounds: nothing is answered or refused, the parser is untouched, every byte is kept and the connection stays |
| ClientViews.PeerCloseEnds | net/TcpConnection.cpp:47-64 | A peer that closes ends the connection in the same round, with one report to the server |
| ClientViews.RoomDrains | net/TcpConnection.cpp:186-216 | While the socket has room each round writes; after as many rounds as bytes wait nothing waits, and the connection is down if and only if a close was pending |
| HttpServers.HttpServer.RunRound | net/Channel.cpp:40-68 | One connection's round on the real objects: read handler, write handler, then its close functors |
| HttpServers.HttpServer.Conclude | HTTP/HttpServer.cpp:57-67 | What follows the parser: refusal, answer and reset |
| HttpServers.RespondAccepts | HTTP/HttpServer.cpp:84-88 | The whole answer is accepted, and one close is queued exactly when the response asks for it |
| HttpServers.HttpServer.OnMessage | HTTP/HttpServer.cpp:49-73 | On the real buffer, parser and connection: the outcome of the specification, or a failed assert exactly where it has one |
| HttpServers.HttpServer.EndsWithBlank | HTTP/HttpServer.cpp:52-54 | True exactly when the readable bytes end in CRLFCRLF |
| HttpServers.HttpServer.OnRequest | HTTP/HttpServer.cpp:75-89 | The printed response goes out, and the close the response asks for is requested |
| HttpServers.HttpServer.BuildAnswer | HTTP/HttpServer.cpp:77-83 | On the real request: the bytes and the close decision of the user's response |
| EventLoops.NoLostWakeup | net/EventLoop.cpp:45-163 | For any number of producers and functors that queue functors, counted on the events alone: whenever the loop is in `Poll` and a functor given has not been called, the eventfd has been written since it was last read or a thread that pushed has still to write; a written eventfd lets `Poll` return, and the wakeup read never blocks |
| EventLoops.ExactlyOnceFifo | net/EventLoop.cpp:115-163 | At every moment of any run the functors given to `QueueInLoop`, by whatever thread, are in order those called, then the rest of the batch, then those waiting |
| EventLoops.BatchIsFixed | net/EventLoop.cpp:148-163 | What a batch calls was given before it was taken; what is given later, also by its own functors, waits for the next |
| EventLoops.NoLostStop | net/EventLoop.cpp:45-66 | The loop leaves at a check of `quit_` if and only if `stop` has been called by then, and it never sleeps through the call |
| EventLoops.QueuedFunctorsRun | net/EventLoop.cpp:148-163 | Whatever the interleaving: when two more batches have ended, every functor given before has been called, each at its place |
| EventLoops.StepKeeps | net/EventLoop.cpp:45-163 | Every step of every thread keeps the invariant behind these |
| EventLoops.BatchExecutes | net/EventLoop.cpp:148-163 | A batch executes exactly what was waiting; what its functors queue stays for the next, with one wakeup each |
| EventLoops.EventLoop.QueueFromThread | net/EventLoop.cpp:115-123 | From another thread: pushed and always woken |
| EventLoops.EventLoop.QueueFromLoop | net/EventLoop.cpp:115-123 | From the loop itself: woken exactly while functors run |
| EventLoops.EventLoop.DoPendingFunctors | net/EventLoop.cpp:148-163 | Swap, run and finish one batch, whatever its functors queue |
| EventLoops.EventLoop.RunBatch | net/EventLoop.cpp:158-161 | The loop over `toRun` runs each functor once, in order |
| EventLoops.EventLoop.RunFirst | net/EventLoop.cpp:160 | One functor runs, and what it queues is behind what waits |
| EventLoops.EventLoop.QueueSpawned | net/EventLoop.cpp:115-123 | Any number of functors queued by a running one |
| EventLoopThreads.StopHandshake | net/EventLoopThread.cpp:24-66 | In every reachable state `stopLoop` touches only a living loop; a stopper asleep on the condition never faces a loop asleep on an empty eventfd; after `stopLoop` nobody reaches the loop through `loop_` |
| EventLoopThreads.NoLostNotify | net/EventLoopThread.cpp:26-65 | In every reachable state, whoever waits for `loop_` to be set, or to be cleared, has been notified if it is |
| EventLoopThreads.NobodyIsStuck | net/EventLoopThread.cpp:24-66 | Inside `startLoop` and `stopLoop` the owner or the worker always has a step, without counting on spurious wakeups |
| EventLoopThreads.OwnerTerminates | net/EventLoopThread.cpp:24-50 | Without spurious wakeups the owner takes at most fourteen steps through both calls, waiting once in each |
| EventLoopThreads.EventLoopThread.PublishLoop | net/EventLoopThread.cpp:56-58 | The loop becomes visible and a waiting owner is woken |
| EventLoopThreads.EventLoopThread.ClearLoop | net/EventLoopThread.cpp:62-64 | It becomes invisible again and a waiting owner is woken |
| EventLoopThreads.EventLoopThread.StartSection | net/EventLoopThread.cpp:42-46 | One pass under the mutex in `startLoop` |
| EventLoopThreads.EventLoopThread.StopSection | net/EventLoopThread.cpp:26-33 | One pass under the mutex: stop and wait while the loop is visible, otherwise done |
| EventLoopThreads.StopTerminates | net/EventLoopThread.cpp:52-66 | After the stop request the worker has at most seven steps left, whatever other threads do |
| EventLoopThreads.EarlyStopAborts | net/EventLoop.cpp:47 | The assert at the head of `loop` fails on exactly those runs that store the stop flag before the worker has entered it |
| EventLoopThreads.EarlyStopHappens | net/EventLoopThread.cpp:36-50 | Such a run: stopping as soon as `startLoop` has returned |
| TimerQueues.GlobalTimerOrder | net/TimerQueue.cpp:31-79 | With a monotone clock, over any run and whatever callbacks add, where a timer is due at the expiration it was created with and, after each run of a repeating one, its whole seconds from then: callbacks run in the order in which they are due, strictly later from one expiry to the next, never at or before that time, and a timer created without repetition runs at most once |
| TimerQueues.QueuedWhenDue | net/TimerQueue.cpp:72-79 | At every moment of any run whatever is queued, due or running stands under the expiration of its object, which is the time it is due |
| TimerQueues.StepKeepsDue | net/TimerQueue.cpp:31-79 | No step queues a timer under any other time |
| TimerQueues.AddedIff | net/TimerQueue.cpp:72-79 | A timer handed to `addTimer` is queued if and only if the time it is due has not passed |
| TimerQueues.TimersConserved | net/TimerQueue.cpp:31-97 | Over any run every timer created is in exactly one place: on its way, queued, due, running, rejected or freed, and no other is anywhere; its object exists exactly until it is freed; queued timers are distinct |
| TimerQueues.StepKeepsPlaces | net/TimerQueue.cpp:31-79 | No step loses or duplicates a timer |
| TimerQueues.NeverFreedWhileQueued | net/TimerQueue.cpp:45-62 | What is queued, due or running has not been deleted |
| TimerQueues.ExpireTakesDue | net/TimerQueue.cpp:31-43 | An expiry moves to the batch exactly the timers due before `now`, in order; the rest stay as they were |
| TimerQueues.StepKeepsShots | net/TimerQueue.cpp:45-62 | Whatever is still due fires after what has fired |
| TimerQueues.StepFiresOnce | net/TimerQueue.cpp:45-62 | A one-shot that has fired is running its only time or is gone |
| TimerQueues.RearmedIff | net/TimerQueue.cpp:52-56 | A timer created to repeat is queued again if and only if its interval has not passed between the two clock readings; otherwise it is neither queued nor freed |
| TimerQueues.RepeaterLost | net/TimerQueue.cpp:45-79 | A run from the start after which a repeater with a truncated interval is in no queue and not freed |
| TimerQueues.TimerQueue.AddTimer | net/TimerQueue.cpp:72-79 | Queued if and only if its deadline has not passed |
| TimerQueues.InsertAt | net/TimerQueue.cpp:77 | A timer goes behind all that are not later, those due at the same time included, and before all that are |
| TimerQueues.TimerQueue.InsertEntry | net/TimerQueue.cpp:77 | The place is found on the real list |
| TimerQueues.TimerQueue.GetExpiredTimers | net/TimerQueue.cpp:31-43 | The due entries move to the batch; nothing before `now` stays at the head |
| TimerQueues.TimerQueue.LowerBound | net/TimerQueue.cpp:37-38 | How many entries are due |
| TimerQueues.TimerQueue.ResetTimers | net/TimerQueue.cpp:45-62 | Each expired timer runs, with whatever its callback adds, and is re-armed or freed before the next one |
| TimerQueues.TimerQueue.TakeTurn | net/TimerQueue.cpp:50-60 | One turn of that loop |
| TimerQueues.TimerQueue.FinishFirst | net/TimerQueue.cpp:52-60 | Re-armed from the clock and queued, or deleted |
| TimerQueues.TimerQueue.HandleRead | net/TimerQueue.cpp:65-69 | One whole batch |
| ThreadPools.ShareIs | net/EventLoopThreadPool.cpp:42-58 | After k calls on n loops, loop i has been returned exactly floor((k + n - 1 - i) / n) times |
| ThreadPools.Balanced | net/EventLoopThreadPool.cpp:42-58 | No loop is ever more than one connection ahead of another |
| ThreadPools.EventLoopThreadPool.Start | net/EventLoopThreadPool.cpp:25-40 | One loop per thread, in order |
| ThreadPools.EventLoopThreadPool.GetNextLoop | net/EventLoopThreadPool.cpp:42-58 | The k-th call returns loop k mod n, or the base loop if there are none |

## Left out

- `retrieveAsString`, `retrieveAllAsString`, `findEOF`: the first clears the buffer whatever its argument; none of them is used by the modelled paths.
- `onMessage` reads four bytes before the end without a length check; fewer than four readable bytes are taken as "gate not passed".
- Cross-thread `send`: it captures a raw pointer and `sendInLoop` does not look at the state again. `send` runs on the connection's own loop, as `HttpServer` uses it, with bytes by value.
- `connectionEstablish` runs on the base thread; it is atomic with respect to the io loop here.
- `QueueInLoop` from the loop's own thread before `loop()` is entered: no wakeup is written, and the model has own-thread calls only from handlers and functors.
- `Poller::fillActiveChannels` and `Channel::handleEventWithGuard`: the active list and the guard are state, and while a guard is held any of read, write and hang-up may follow in any order, which includes the order of the code; EPOLLERR only logs.
- The loops of `EventLoop::loop`, `startLoop` and `stopLoop` around blocking calls are steps of the state machines, not methods.
- Failing system calls other than `write` and `readv`: `epoll_ctl` succeeds, and a failed `epoll_wait` is a poll that reports nothing new. The eventfd is a counter that a read sets to 0, and never overflows.
- Teardown of a whole `TcpServer`, `EventLoop` or `TimerQueue`, and `EventLoop::stop` while other threads still hold the loop outside `EventLoopThread`.
- `Socket`, `NetAddr`, `Acceptor`, `Mutex`, `Condition`, `Thread`, signals, logging, `boost::any`, the demo in `test/`: wrappers and glue.
- `kExpectBody`, request bodies, case-insensitive header names, several requests in one `onMessage`: not implemented by the code either.
- `getLoopForHash`, `getAllLoops` and plain getters and setters would only add easy members.
- 32-bit widths, except where strings are appended; bytes are `char`, and `extrabuf`, one static array shared by all threads, is private to a call here.
- Buffers.BufferIsQueue: covers runs in which no step loses bytes; when a step does is in the two if-and-only-if lemmas.
- Buffers.Buffer.AppendString: under an allocator that adds nothing; so are all that print into a buffer.
- HttpResponses.HttpResponse.AppendToBuffer: into a buffer whose size is its capacity, as a new one is.
- HttpResponses.HttpResponse.AppendFields: the same.
- Buffers.Buffer.ReadFd: requires the read index within the vector's size, which only a drain behind lost bytes can break.
- HttpContexts.HttpContext.ParseRequest: requires one of the two parsing states; in the others the loop of the original does not end.
- HttpResponses.ResponseRoundTrip: headers set by the user must be one-line, colon-free in the name and trimmed, and the status message on one line; the printer does not check.
- HttpConversations.ServesConversation: one request per message, as the gate and `onMessage` have it; the peer does not close or hang up meanwhile; the user's callback is a function of the request and its responses are smaller than 2^31 bytes.
- HttpConversations.WireOnlyEndsReading: the peer does not close or hang up meanwhile.
- HttpConversations.CrashesIff: hang-ups are not among the rounds; they are in `TcpServers` and `Teardowns`.
- TcpConnections.TcpConnection.ConnectionEstablish: the connection callback is not part of the connection; what `HttpServer` does in it is the initial state of a session.
- TcpConnections.TcpConnection.Send: on the connection's own loop only.
- Teardowns.ConnectionsSafe: hang-ups come only while the connection is open, and `send` runs on the connection's own loop.
- TcpServers.StepKeeps: the same for hang-ups.
- TcpServers.NoDanglingOverRuns: the same for hang-ups.
- Removals.TeardownCompletes: the same for hang-ups; that loops go on finishing batches is `EventLoops`' business.
- TcpServers.LifecycleSafe: hang-ups come only while the connection is open; what a later one does is in `LateHangUpIsFatal`.
- TcpServers.TcpServer.RunFunctor: user callbacks and functors other than those of the teardown are not part of the queues.
- ClientViews.KeptAsAsked: one request, and a callback that leaves the flag alone; `ReplyMeans` and `ServesConversation` cover any callback and any number of requests.
- HttpResponses.StatusLineSays: a negative status code is not part of the model.
- TimerQueues.GlobalTimerOrder: assumes a clock that never runs backwards, where the code reads the wall clock, and deadlines in whole microseconds, where it computes in `double`.
- TimerQueues.TimerQueue.ResetTimers: what callbacks do is an arbitrary sequence of creating and adding timers; a timer's address is a number never used twice.
- EventLoops.EventLoop.DoPendingFunctors: runs without interference; interference is in the steps and their lemmas.
- EventLoopThreads.EventLoopThread.StopSection: the loop around `cond_.wait` is the repetition of this section.
