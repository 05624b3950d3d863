# Uvicorn's connection state machines, proved

Uvicorn drives ASGI applications over HTTP/1.1, HTTP/2 and WebSocket connections. The parsing is done by libraries;
what Uvicorn itself decides is when a request starts, which bytes or library calls a message of the application
becomes, when reads pause, which timer runs, and how each of the many ways to end a connection plays out. This
project models that code and proves what it promises, over every run.

Each component comes in the same two layers.

* A **specification on values**: the component's state as a datatype, one function for each piece of code between two
  `await`s, an `Enabled` predicate that says when the environment lets an event occur, and a `Step`. An invariant is
  proved for every step, lifted to whole runs, and the main results are read off it: they are about every sequence of
  events the environment allows. History that a step records is tied to the events: what is answered, uploaded,
  handled or sent is the value of a fold over them.
* The **classes of the source**, with the source's own fields and loops. Each object carries a ghost value `abs`;
  `Valid` ties the fields to it, and each method is proved to move `abs` exactly by the specification's function for
  that code. For the four connection classes, `Serve` makes the method calls for any sequence of events and ends in the
  state that the specification's run reaches, so that the results over runs hold of the objects.

| files | component |
|---|---|
| `Text`, `Lists`, `Flow` | byte strings and numerals; lists as sets; flow control and the transport |
| `Http1Wire`, `Http1Spec`, `Http1Pipeline`, `Http1Runs`, `Http1ReadBack`, `Http1Conversations`, `Http1Answers`, `Http1Effects`, `Http1Protocol` | HTTP/1.1: a writer and an RFC 9112 reader, the pipeline of queued requests, the invariant, the results over runs, the read-back theorems, uploads and answers told from the events alone, what each event does to the connection, the classes |
| `Http2Spec`, `Http2Streams`, `Http2Multiplexer`, `Http2Runs`, `Http2Uploads`, `Http2Answers`, `Http2Effects`, `Http2Protocol` | HTTP/2: streams and their calls, the invariant of the connection, the results over runs, uploads and answers told from the events alone, what each event does to the connection, the classes |
| `WebSocketSpec`, `WebSocketMachine`, `WebSocketRuns`, `WebSocketMessages`, `WebSocketEvents`, `WebSocketProtocols` | WebSocket: one machine for both implementations, with every difference between them a branch on the library, its invariant, the results over runs, messages and their fragments, what each event does and what the peer is sent, and the two classes that refine it |
| `SupervisorSpec`, `Supervisor`, `SupervisorSignals`, `Multiprocess`, `Readiness` | the worker supervisor, and the health check of one worker with answers that may be stale |
| `Wsgi`, `ProxyHeaders`, `ReloadDirs`, `AutoSniff`, `Lifespan` | the thread-to-loop bridge, forwarded addresses, watched directories, protocol sniffing, the lifespan rendezvous |

What the environment is taken to promise is stated where it is used, in the `Enabled` predicates and the `requires`
clauses: parser callbacks of one request precede those of the next; HTTP/2 stream ids are never used twice
(section 5.1.1 of RFC 9113); asyncio delivers no read after `close` or while reads are paused; the WebSocket handshake
request comes first and once, and no data frame follows the peer's close; an application sends and receives only while
it runs, and does not call `receive` a second time before the first has returned; a WebSocket library refuses a
message only on a connection that is closing, and other library calls do not raise.

Some things that one might expect of the code are false of it. Each is stated exactly, as a condition that holds if
and only if the expectation does, beside an example at which it fails:

* A lost HTTP/1.1 connection does not reach every pipelined cycle (`Http1Runs.LossReachesOpenCycle`,
  `Http1Runs.LossCanMissOpenCycle`).
* The framing that a client derives from a response head is not always the one used for its body
  (`Http1ReadBack.FramingAgrees`, `Http1ReadBack.FramingCanDisagree`), and a response that must not have a body can
  leave bytes on the wire (`Http1ReadBack.BodylessLeavesNothing`, `Http1ReadBack.BodylessCanLeaveBytes`).
* An armed HTTP/2 keep-alive timer does not imply that there are no streams (`Http2Runs.ReadKeepsTimerMeaningExactly`,
  `Http2Runs.TimerCanOutliveIdleness`).
* The calls on an HTTP/2 stream leave their grammar if the application goes on after a start message whose
  content-length is not a number (`Http2Streams.GrammarExactly`, `Http2Streams.GrammarCanBreak`).
* Health checks do not keep the number of workers at all times (`Supervisor.HealthCheckKeepsCapacityExactly`,
  `Supervisor.HealthCheckCanDropToNone`).

## Model

| member | source | states |
|---|---|---|
| Flow.StillMirrors | uvicorn/protocols/http/flow_control.py:21-29 | pausing and resuming keep the transport's calls strictly alternating, with the flag saying which came last |
| Flow.FlowControl.PauseReading | uvicorn/protocols/http/flow_control.py:21-24 | pauses the transport exactly when it is not paused |
| Flow.FlowControl.ResumeReading | uvicorn/protocols/http/flow_control.py:26-29 | resumes the transport exactly when it is paused |
| Flow.FlowControl.PauseWriting | uvicorn/protocols/http/flow_control.py:31-34 | the writable event is set exactly while writing is not paused |
| Flow.FlowControl.ResumeWriting | uvicorn/protocols/http/flow_control.py:36-39 | the writable event is set exactly while writing is not paused |
| Http1ReadBack.ConnectionReadsBack | uvicorn/protocols/http/httptools_impl.py:276-296 | after any run, a reader following RFC 9112 gets from the connection's bytes the completed responses, whole and in request order, as far as they are readable ones, then everything written after them: if all are, what is written of the response in progress |
| Http1ReadBack.ResponseReadsBack | uvicorn/protocols/http/httptools_impl.py:459-561 | a completed response is read back with its status, its fields and the concatenation of the application's bodies (none for HEAD; 204 and 304 included), whatever follows on the wire |
| Http1ReadBack.PlainAnswerReadsBack | uvicorn/protocols/http/httptools_impl.py:466-557 | a 200 response without headers is such a response, and its body, whatever it is, is read back |
| Http1ReadBack.FramingAgrees | uvicorn/protocols/http/httptools_impl.py:491-517 | the framing a client derives from the head is the one used for the body if and only if the application's headers are clean, a condition on the headers alone |
| Http1ReadBack.FramingCanDisagree | uvicorn/protocols/http/httptools_impl.py:491-509 | a start message with two content-lengths is accepted: the first is used, and a client finds no valid length |
| Http1ReadBack.BodylessLeavesNothing | uvicorn/protocols/http/httptools_impl.py:514-557 | after a 204 or 304 the client reads the response with nothing left on the wire to misread if and only if no transfer-encoding of the application's headers is "chunked" and the first content-length, if any, is zero |
| Http1ReadBack.BodylessCanLeaveBytes | uvicorn/protocols/http/httptools_impl.py:502-540 | a 204 sent with `transfer-encoding: chunked` is accepted and completed, and its last chunk is left for the client to read as the next response |
| Http1ReadBack.ReadAllThen | uvicorn/protocols/http/httptools_impl.py:523-557 | completed responses in front of any stream extend what is read from it at the front |
| Http1ReadBack.ScanFinds | uvicorn/protocols/http/httptools_impl.py:491-509 | what the header loop has found, in terms of the headers alone |
| Http1Wire.ReadMessageOf | uvicorn/protocols/http/httptools_impl.py:487-520 | a written head is read back as its status and fields (sections 4 and 5 of RFC 9112) |
| Http1Wire.ReadChunksOf | uvicorn/protocols/http/httptools_impl.py:533-540 | written chunks are read back as the concatenation of the bodies: an empty body writes no chunk, so none ends the body early (section 7.1 of RFC 9112) |
| Http1Wire.ReadPastContinue | uvicorn/protocols/http/httptools_impl.py:564-566 | the interim response is skipped by the reader |
| Http1Runs.OneResponseAtATime | uvicorn/protocols/http/httptools_impl.py:276-343 | requests start in order; only the last one started can lack a complete response; the wire is each cycle's own bytes, cycle after cycle; an armed keep-alive timer means nothing waits and the latest response is complete |
| Http1Runs.ShutdownStartsNoMore | uvicorn/protocols/http/httptools_impl.py:345-352 | after `shutdown`, the cycle that was latest is the last one ever started, whatever still happens |
| Http1Runs.RequestBodyConserved | uvicorn/protocols/http/httptools_impl.py:309-577 | what `receive` has returned and what is buffered are together what the parser delivered; waiting data keeps the event set; "no more body" is said at most once, with the last byte |
| Http1Runs.LengthAccounted | uvicorn/protocols/http/httptools_impl.py:541-552 | every cycle's bytes are its interim response, its head if its start message was accepted, and its payload; under a declared length, written plus remaining equals declared even after caught length errors, and a complete response wrote exactly that much |
| Http1Runs.LossReachesOpenCycle | uvicorn/protocols/http/httptools_impl.py:122-125 | a lost connection is noticed by the cycle still answering if and only if no request is queued behind it |
| Http1Runs.LossCanMissOpenCycle | uvicorn/protocols/http/httptools_impl.py:122-125 | two requests in one read reach a state in which the cycle still answering is not told of a loss |
| Http1Runs.ReadsMirrored | uvicorn/protocols/http/httptools_impl.py:290-333 | reads are paused and resumed strictly in turn over every run |
| Http1Runs.PausedOnlyWhileAnswering | uvicorn/protocols/http/httptools_impl.py:290-333 | on an open connection reads are paused only while the request started last is still being answered, whose `receive` or end resumes them |
| Http1Runs.StepKeepsInv | uvicorn/protocols/http/httptools_impl.py:169-372 | every callback, application step, timer, shutdown and loss keeps the connection's invariant |
| Http1Pipeline.SendOk | uvicorn/protocols/http/httptools_impl.py:459-561 | any message, accepted or refused, leaves a cycle's bytes equal to its interim response, head and payload |
| Http1Pipeline.KeepsCompletion | uvicorn/protocols/http/httptools_impl.py:323-343 | the end of a response keeps the invariant: the oldest waiting request starts, or the timer does |
| Http1Answers.AnswersAreThoseSent | uvicorn/protocols/http/httptools_impl.py:459-561 | after any run, what is recorded of the answer to a request is what its application sent, by a fold over the events: it is started by the first start message, accepted exactly if that can be taken, with its status, reason and headers behind the default ones, and its bodies are those of the body messages that found a response in progress with room for them |
| Http1Answers.ClientReadsWhatWasSent | uvicorn/protocols/http/httptools_impl.py:459-561 | end to end: as far as the answers are readable, the reply that a client reads for the k-th request has the status of the application's start message and the concatenation of the bodies it sent, or none for HEAD |
| Http1Answers.StartIsTaken | uvicorn/protocols/http/httptools_impl.py:471-520 | a start message on a cycle that has not started: what is answered if it can be taken, and that it raises and writes nothing if it cannot |
| Http1Answers.BodyIsTaken | uvicorn/protocols/http/httptools_impl.py:527-555 | a body message on a response in progress is taken whole if the framing has room for it and otherwise refused with nothing changed; when it completes the response, raises, closes the connection and passes it on |
| Http1Answers.OthersAreRefused | uvicorn/protocols/http/httptools_impl.py:459-561 | every other message raises and changes nothing, or is ignored on a cycle that is disconnected |
| Http1Answers.ScanFailsExactly | uvicorn/protocols/http/httptools_impl.py:491-509 | the header loop fails exactly on a character that is not allowed or a content-length that is not a number and not preceded by a framing header; keep-alive ends exactly if a header asks for it |
| Http1Conversations.CyclesAreRequests | uvicorn/protocols/http/httptools_impl.py:261-321 | one cycle for each request that the parser has reported, in order, with its method, default headers and body; the interim response is owed exactly to a request that asks for it and is not answered |
| Http1Conversations.UploadReachesApplication | uvicorn/protocols/http/httptools_impl.py:309-577 | what the parser has delivered of a request's body, by a fold over its callbacks, is what the application has received and what is buffered; it is woken for what it has not been told; "no more body" is said at most once, last, with the last byte, when the end has been seen |
| Http1Effects.ReadPausesExactly | uvicorn/protocols/http/httptools_impl.py:276-315 | a read pauses the transport exactly if it brings a request behind one that is not answered, or more of a body than the limit allows |
| Http1Effects.ReceiveAsksForMore | uvicorn/protocols/http/httptools_impl.py:563-570 | `receive` resumes reads unless there is nothing to wait for, and a client waiting for it is told to go on, once, while the transport is open |
| Http1Effects.SendingPasses | uvicorn/protocols/http/httptools_impl.py:323-343 | the message that completes a response closes the connection if it was not to be kept alive, or else resumes reads and starts the oldest waiting request or the timer; any other leaves the connection's course as it is |
| Http1Effects.EveryResponseIsCounted | uvicorn/protocols/http/httptools_impl.py:323-325 | after any run the count is the number of complete responses, which are those of the first so many requests |
| Http1Effects.ShutdownCloses | uvicorn/protocols/http/httptools_impl.py:345-352 | a shutdown closes a connection with nothing to answer, and otherwise ends keep-alive for the latest request alone |
| Http1Effects.LossIsTold | uvicorn/protocols/http/httptools_impl.py:115-132 | a loss closes the transport and wakes the latest request's application, with a disconnect if its response is not complete |
| Http1Effects.EndIsHandled | uvicorn/protocols/http/httptools_impl.py:416-442 | which endings of an application are answered for with a 500, which close the connection, and which are quiet |
| Http1Effects.FailureReads500 | uvicorn/protocols/http/httptools_impl.py:444-456 | the 500 response: status 500, the text of that status, a complete response, and the close of the connection, whatever default headers leave the framing to it |
| Http1Effects.KeepAliveIsAsked | uvicorn/protocols/http/httptools_impl.py:261-296 | a connection is kept alive only if the request asked for it, and until a shutdown every request that has not been answered keeps what it asked for |
| Http1Effects.CloseIsAnnounced | uvicorn/protocols/http/httptools_impl.py:504-512 | the head of an accepted response announces the close of the connection exactly if it will be closed after the response |
| Http1Protocol.RequestResponseCycle.Send | uvicorn/protocols/http/httptools_impl.py:459-561 | `send` after the write wait: the bytes, the end of the response and the pipeline's next step |
| Http1Protocol.RequestResponseCycle.TakeHeaders | uvicorn/protocols/http/httptools_impl.py:491-509 | the header loop: framing, keep-alive and the lines written |
| Http1Protocol.RequestResponseCycle.HeaderLines | uvicorn/protocols/http/httptools_impl.py:491-517 | the header loop and the fields the server adds |
| Http1Protocol.RequestResponseCycle.StartResponse | uvicorn/protocols/http/httptools_impl.py:471-520 | a start message writes the head its headers determine, or fails with nothing written |
| Http1Protocol.RequestResponseCycle.WriteBody | uvicorn/protocols/http/httptools_impl.py:527-555 | a body message in the chosen framing, the length errors, and when the response ends |
| Http1Protocol.RequestResponseCycle.ReceiveBegin | uvicorn/protocols/http/httptools_impl.py:563-570 | `receive` before its wait: interim response and resumed reads |
| Http1Protocol.RequestResponseCycle.ReceiveEnd | uvicorn/protocols/http/httptools_impl.py:571-577 | `receive` after its wait: the buffered body and whether more is to come, or a disconnect |
| Http1Protocol.RequestResponseCycle.AppEnds | uvicorn/protocols/http/httptools_impl.py:416-440 | how a finished application ends its cycle: quietly, by closing, or with a 500 still to send |
| Http1Protocol.RequestResponseCycle.Finish | uvicorn/protocols/http/httptools_impl.py:441-442 | the callback is dropped when the task ends |
| Http1Protocol.RequestResponseCycle.Sends500 | uvicorn/protocols/http/httptools_impl.py:444-455 | the first `send` of `send_500_response`, and the end of the task if it raises |
| Http1Protocol.RequestResponseCycle.Ends500 | uvicorn/protocols/http/httptools_impl.py:456-456 | the second `send`, and the end of the task |
| Http1Protocol.HttpToolsProtocol.OnHeadersComplete | uvicorn/protocols/http/httptools_impl.py:276-296 | a request starts at once or is queued behind a paused transport |
| Http1Protocol.HttpToolsProtocol.OnBody | uvicorn/protocols/http/httptools_impl.py:309-315 | body data reaches the latest cycle, and reads pause above the limit |
| Http1Protocol.HttpToolsProtocol.OnMessageComplete | uvicorn/protocols/http/httptools_impl.py:317-321 | the end of a request reaches the latest cycle |
| Http1Protocol.HttpToolsProtocol.OnResponseComplete | uvicorn/protocols/http/httptools_impl.py:323-343 | counts, resumes reads and starts the oldest waiting cycle, or arms the timer |
| Http1Protocol.HttpToolsProtocol.DataReceived | uvicorn/protocols/http/httptools_impl.py:169-173 | one read is its callbacks in order, with the timer cancelled first |
| Http1Protocol.HttpToolsProtocol.Shutdown | uvicorn/protocols/http/httptools_impl.py:345-352 | closes when idle, else ends keep-alive for the latest cycle |
| Http1Protocol.HttpToolsProtocol.ConnectionLost | uvicorn/protocols/http/httptools_impl.py:115-132 | marks the latest cycle only |
| Http1Protocol.HttpToolsProtocol.TimeoutKeepAliveHandler | uvicorn/protocols/http/httptools_impl.py:366-372 | closes the transport |
| Http1Protocol.HttpToolsProtocol.Serve | uvicorn/protocols/http/httptools_impl.py:44-577 | method calls for any sequence of events that the environment allows leave the objects in the state that the specification's run reaches, so that the results over runs are about these objects |
| Http2Runs.MapHoldsStreamsInFlight | uvicorn/protocols/http/zttp_h2_impl.py:245-275 | the map holds exactly the streams not completed, not reset by the peer and not finished by their task; requests seen are those counted plus those whose `on_response` has not fired |
| Http2Runs.IdleConnectionIsTimed | uvicorn/protocols/http/zttp_h2_impl.py:124-145 | an open connection that has completed a read and has no streams has its keep-alive timer armed |
| Http2Runs.ReadBackpressure | uvicorn/protocols/http/zttp_h2_impl.py:166-285 | a mapped stream over the limit holds reads paused, an open connection without streams never does, and pauses and resumes alternate |
| Http2Runs.StreamCallsInOrder | uvicorn/protocols/http/zttp_h2_impl.py:432-542 | on every stream the end is called exactly when the response is complete and the data are the accepted bodies; unless its start message was refused, the calls match informational* (response data* end?)? reset?, and an ended response under a declared length sent exactly that many bytes |
| Http2Runs.ShutdownDrains | uvicorn/protocols/http/zttp_h2_impl.py:303-312 | after `shutdown`, the transport is closing as soon as every stream is answered, reset or left by its task |
| Http2Runs.SiblingsSurvive | uvicorn/protocols/http/zttp_h2_impl.py:409-415 | a step of one stream's task, even one that resets it, changes no other stream |
| Http2Runs.FrameKeepsTimerMeaning | uvicorn/protocols/http/zttp_h2_impl.py:192-261 | one frame breaks "an armed timer means no streams" if and only if it is a request that arrives while the timer is armed |
| Http2Runs.ReadKeepsTimerMeaningExactly | uvicorn/protocols/http/zttp_h2_impl.py:162-190 | throughout a read on an open connection it holds unless some reset empties the map, as the map was before the read and the frames since leave it, before any shutdown is asked for, and a request follows: then it does not |
| Http2Runs.ReadKeepsTimerMeaning | uvicorn/protocols/http/zttp_h2_impl.py:124-145 | a read in which no request follows a reset keeps it |
| Http2Runs.OtherStepsKeepTimerMeaning | uvicorn/protocols/http/zttp_h2_impl.py:277-312 | every event other than a read keeps it |
| Http2Runs.TimerCanOutliveIdleness | uvicorn/protocols/http/zttp_h2_impl.py:254-293 | a reset that empties the map and a new request in the same read leave the timer armed over a live stream |
| Http2Streams.GrammarExactly | uvicorn/protocols/http/zttp_h2_impl.py:453-512 | whatever hints and refused messages come before the start message and whatever messages follow, the calls stay in the grammar if and only if its content-lengths are numbers (or an earlier one is negative, so that nothing can be sent) |
| Http2Streams.GrammarCanBreak | uvicorn/protocols/http/zttp_h2_impl.py:458-512 | after a start message with content-length "x" is refused, a body message sends data before any response |
| Http2Streams.SendOk | uvicorn/protocols/http/zttp_h2_impl.py:432-542 | every message, accepted or refused, keeps a stream's calls in the grammar and its data equal to the accepted bodies |
| Http2Multiplexer.StepKeepsInv | uvicorn/protocols/http/zttp_h2_impl.py:99-331 | every read, application step, timer, shutdown and loss keeps the map, the count, the drain, backpressure and the timer in step |
| Http2Multiplexer.HandleOk | uvicorn/protocols/http/zttp_h2_impl.py:162-190 | every frame keeps the invariant |
| Http2Answers.CallsAreThoseSent | uvicorn/protocols/http/zttp_h2_impl.py:432-542 | after any run the calls made on a stream are exactly those of the answer its application sent, by a fold over messages, request and losses that keeps no state of the code: hints, the accepted start message with the headers that may be passed on, the bodies that fit the declared length, the end with the trailers, and the reset |
| Http2Answers.MessageTold | uvicorn/protocols/http/zttp_h2_impl.py:432-542 | a message does to a connected stream what it does to that answer, and `send` raises exactly at those that the answer does not admit |
| Http2Answers.LengthIsTheLast | uvicorn/protocols/http/zttp_h2_impl.py:458-466 | the declared length is the last content-length, and the start message fails if and only if some content-length is not a number |
| Http2Answers.HeadersAreFiltered | uvicorn/protocols/http/zttp_h2_impl.py:456-466 | a response's headers are passed on one by one and in order, in lower case, without those that may not be |
| Http2Answers.GatherTakesTrailers | uvicorn/protocols/http/zttp_h2_impl.py:518-528 | the trailers in front of the first pseudo header are taken, if the client wants them, and it fails exactly if there is one |
| Http2Answers.NothingForbiddenIsPassedOn | uvicorn/protocols/http/zttp_h2_impl.py:456-531 | no header or trailer that concerns the connection is ever passed on (section 8.2.2 of RFC 9113) |
| Http2Uploads.UploadReachesApplication | uvicorn/protocols/http/zttp_h2_impl.py:166-183 | while the response on a stream is in progress, what the peer has sent of the request body, by a fold over its frames, is what the application has received and what is buffered; the buffer says there is more until the end has been seen; an application that has not been told everything is woken |
| Http2Uploads.EndIsSaidOnce | uvicorn/protocols/http/zttp_h2_impl.py:544-555 | "no more body" is said at most once and last, when the end has been seen, and by then everything has been received |
| Http2Effects.DataPausesExactly | uvicorn/protocols/http/zttp_h2_impl.py:166-176 | a DATA frame pauses reads exactly if it takes the buffer of a stream in flight beyond the limit, and touches no other stream |
| Http2Effects.ResetIsTold | uvicorn/protocols/http/zttp_h2_impl.py:254-261 | the peer's reset removes a stream from the map and wakes its application with a disconnect, and touches no other stream; how the connection goes on without it |
| Http2Effects.CompletionSettles | uvicorn/protocols/http/zttp_h2_impl.py:272-293 | the message that completes a response takes its stream out of the map and counts it: reads resume unless a stream that is left is overfull, and an empty connection closes if it has been asked to, or else is timed |
| Http2Effects.EndIsHandled | uvicorn/protocols/http/zttp_h2_impl.py:380-407 | which endings of an application are answered for with a 500; any other takes the stream out of the map, disconnected if it is reset |
| Http2Effects.ReceiveAsksForMore | uvicorn/protocols/http/zttp_h2_impl.py:544-547 | `receive` on a stream in flight resumes reads unless some stream of the map is overfull |
| Http2Effects.ShutdownIsNoted | uvicorn/protocols/http/zttp_h2_impl.py:303-312 | a shutdown does what the peer's GOAWAY does: it closes a connection without streams in flight, and is otherwise noted for when there are none |
| Http2Effects.LossIsTold | uvicorn/protocols/http/zttp_h2_impl.py:99-114 | a loss closes the transport and wakes exactly the streams in the map, with a disconnect |
| Http2Protocol.RequestResponseCycle.Send | uvicorn/protocols/http/zttp_h2_impl.py:432-542 | `send` after the write wait: calls, state and the completion callback |
| Http2Protocol.RequestResponseCycle.TakeHeaders | uvicorn/protocols/http/zttp_h2_impl.py:456-466 | the header loop: the headers passed on, the last content-length that is a number, and failure on one that is not |
| Http2Protocol.RequestResponseCycle.StartResponse | uvicorn/protocols/http/zttp_h2_impl.py:453-484 | a start message |
| Http2Protocol.RequestResponseCycle.WriteBody | uvicorn/protocols/http/zttp_h2_impl.py:486-512 | a body message: charged against the length, written, and perhaps the end |
| Http2Protocol.RequestResponseCycle.WriteTrailers | uvicorn/protocols/http/zttp_h2_impl.py:514-532 | a trailers message: the trailers gathered, and the end |
| Http2Protocol.RequestResponseCycle.AbortStream | uvicorn/protocols/http/zttp_h2_impl.py:409-415 | resets this stream unless the transport is closing |
| Http2Protocol.RequestResponseCycle.AppEnds | uvicorn/protocols/http/zttp_h2_impl.py:380-404 | how a finished application ends its stream |
| Http2Protocol.RequestResponseCycle.Finish | uvicorn/protocols/http/zttp_h2_impl.py:405-407 | `on_response` fires once |
| Http2Protocol.RequestResponseCycle.Sends500 | uvicorn/protocols/http/zttp_h2_impl.py:417-423 | the first `send` of `send_500_response`, and the end of the task if it raises |
| Http2Protocol.RequestResponseCycle.Ends500 | uvicorn/protocols/http/zttp_h2_impl.py:424-429 | the second `send`, and the end of the task |
| Http2Protocol.RequestResponseCycle.ReceiveBegin | uvicorn/protocols/http/zttp_h2_impl.py:544-547 | `receive` before its wait |
| Http2Protocol.RequestResponseCycle.ReceiveEnd | uvicorn/protocols/http/zttp_h2_impl.py:548-555 | `receive` after its wait |
| Http2Protocol.ZttpH2Protocol.DataReceived | uvicorn/protocols/http/zttp_h2_impl.py:124-145 | one read: its events in order, then the timer if the connection is idle |
| Http2Protocol.ZttpH2Protocol.HandleEvent | uvicorn/protocols/http/zttp_h2_impl.py:162-190 | one event of a read |
| Http2Protocol.ZttpH2Protocol.HandleRequest | uvicorn/protocols/http/zttp_h2_impl.py:192-252 | a new stream joins the map |
| Http2Protocol.ZttpH2Protocol.HandleRstStream | uvicorn/protocols/http/zttp_h2_impl.py:254-261 | a reset stream leaves the map and its application is told |
| Http2Protocol.ZttpH2Protocol.ResumeReadingIfIdle | uvicorn/protocols/http/zttp_h2_impl.py:263-270 | reads resume only if no stream is over the limit |
| Http2Protocol.ZttpH2Protocol.OnResponseComplete | uvicorn/protocols/http/zttp_h2_impl.py:272-275 | counts and removes the stream |
| Http2Protocol.ZttpH2Protocol.OnStreamClosed | uvicorn/protocols/http/zttp_h2_impl.py:277-293 | resumed reads, and the drain or the timer when the map is empty |
| Http2Protocol.ZttpH2Protocol.Shutdown | uvicorn/protocols/http/zttp_h2_impl.py:303-312 | refuses new streams, and closes when idle |
| Http2Protocol.ZttpH2Protocol.ConnectionLost | uvicorn/protocols/http/zttp_h2_impl.py:99-114 | every stream in the map is told |
| Http2Protocol.ZttpH2Protocol.TimeoutKeepAliveHandler | uvicorn/protocols/http/zttp_h2_impl.py:326-331 | closes the connection |
| Http2Protocol.ZttpH2Protocol.Serve | uvicorn/protocols/http/zttp_h2_impl.py:35-555 | method calls for any sequence of events that the environment allows leave the objects in the state that the specification's run reaches |
| WebSocketRuns.QueuedEventsInLanguage | uvicorn/protocols/websockets/websockets_sansio_impl.py:135-186 | over either library, everything queued for the application is (connect receive*)? disconnect*, the queue is what it has not taken, and a lost connection is announced last |
| WebSocketRuns.TimersAreTheStoredOnes | uvicorn/protocols/websockets/websockets_sansio_impl.py:307-384 | live timers are the stored, unfired handles; ping and pong are never both armed; none is live after a loss; an ended application leaves the transport closing or a close timer that will close it |
| WebSocketRuns.KeepaliveNeverStalls | uvicorn/protocols/websockets/wsproto_impl.py:289-333 | while an accepted connection is open the next ping or the deadline of the last is armed, and a deadline has the payload to be answered |
| WebSocketRuns.ReadsNeverDeadlock | uvicorn/protocols/websockets/websockets_sansio_impl.py:282-301 | paused reads have an event to be taken; a waiting message holds reads paused; after the application's close reads are active; the queue never holds messages of two reads |
| WebSocketMessages.FragmentationIrrelevant | uvicorn/protocols/websockets/wsproto_impl.py:42-65 | however a message is cut into fragments, whatever pings and pongs come between them and over however many reads, with whatever else happens between those, the application is sent one event for it, with the concatenation of their data or the reason of its refusal |
| WebSocketMachine.StepKeepsInv | uvicorn/protocols/websockets/wsproto_impl.py:140-500 | every read, application step, timer, shutdown and loss keeps the events, timers and reads in order, over either library |
| WebSocketMachine.EventOk | uvicorn/protocols/websockets/websockets_sansio_impl.py:195-213 | every event of a read keeps the invariant, over either library |
| WebSocketMachine.SendKeeps | uvicorn/protocols/websockets/websockets_sansio_impl.py:425-542 | every message of the application keeps the invariant, over either library |
| WebSocketEvents.UnansweredPingCloses | uvicorn/protocols/websockets/websockets_sansio_impl.py:355-366 | from any reached state, the deadline of an unanswered ping closes an open connection, with the close sent |
| WebSocketEvents.PingIsSent | uvicorn/protocols/websockets/websockets_sansio_impl.py:340-353 | the ping timer sends a ping with its deadline or the next ping, and nothing once the connection is closing |
| WebSocketEvents.PongIsMatched | uvicorn/protocols/websockets/websockets_sansio_impl.py:307-320 | a pong with the pending payload leaves no deadline and arms the next ping; any other leaves the timers as they were |
| WebSocketEvents.CloseTimerCloses | uvicorn/protocols/websockets/websockets_sansio_impl.py:513-513 | the close timer closes the transport and changes nothing else |
| WebSocketEvents.LossIsAnnounced | uvicorn/protocols/websockets/websockets_sansio_impl.py:135-154 | a lost connection is announced, as abnormal (1006) if it never was a WebSocket, and nothing is left armed |
| WebSocketEvents.ShutdownIsAnnounced | uvicorn/protocols/websockets/websockets_sansio_impl.py:171-186 | a shutdown closes the transport and tells an accepted, open connection 1012; nothing is left armed |
| WebSocketEvents.PeerCloseIsAnnounced | uvicorn/protocols/websockets/websockets_sansio_impl.py:368-384 | the peer's close closes the transport, and its code is announced unless it answers a close |
| WebSocketEvents.SecondCloseIsIgnored | uvicorn/protocols/websockets/websockets_sansio_impl.py:377-384 | a second close frame in one read changes nothing |
| WebSocketEvents.ProtocolErrorCloses | uvicorn/protocols/websockets/websockets_sansio_impl.py:188-193 | a protocol error closes the transport, and the sans-I/O implementation announces the library's code |
| WebSocketEvents.EndedAppCloses | uvicorn/protocols/websockets/websockets_sansio_impl.py:414-415 | a finished application leaves the transport closing unless the close timer will close it |
| WebSocketEvents.RequestStartsApp | uvicorn/protocols/websockets/websockets_sansio_impl.py:217-263 | a handshake request starts the application with a connect event, or is refused by the library and closes |
| WebSocketEvents.RaisesExactly | uvicorn/protocols/websockets/websockets_sansio_impl.py:425-542 | the messages at which `send` raises, in terms of the phase of the connection |
| WebSocketEvents.AcceptOpens | uvicorn/protocols/websockets/websockets_sansio_impl.py:432-453 | accepting completes the handshake and arms the first ping, and does nothing on a closing connection |
| WebSocketEvents.RefusalIsAnnounced | uvicorn/protocols/websockets/websockets_sansio_impl.py:455-468 | closing before the handshake, or completing a denial, closes the transport and announces 1006; after a refusal every message raises |
| WebSocketEvents.DenialStarts | uvicorn/protocols/websockets/websockets_sansio_impl.py:469-482 | starting a response turns the connection into a denial, and nothing else changes until it is complete |
| WebSocketEvents.AppCloseStartsHandshake | uvicorn/protocols/websockets/websockets_sansio_impl.py:501-513 | the application's close: its code comes back, reads are active, and the close timer bounds the wait |
| WebSocketEvents.MessagesReachPeer | uvicorn/protocols/websockets/websockets_sansio_impl.py:489-513 | over every run the peer is sent exactly the messages that the application sends while the connection is open, once each and in order, and at most one close frame, last |
| WebSocketEvents.ReceiveTakesOldest | uvicorn/protocols/websockets/websockets_sansio_impl.py:544-549 | `receive` takes the oldest event, and reads resume exactly when none is left |
| WebSocketProtocols.Connection.SendKeepalivePing | uvicorn/protocols/websockets/websockets_sansio_impl.py:340-353 | a ping is sent and its deadline, or the next ping, scheduled, unless the connection is closing |
| WebSocketProtocols.Connection.KeepaliveTimeout | uvicorn/protocols/websockets/websockets_sansio_impl.py:355-366 | an unanswered ping closes the connection |
| WebSocketProtocols.Connection.HandlePong | uvicorn/protocols/websockets/websockets_sansio_impl.py:307-320 | only the answer to the ping in flight cancels its deadline and schedules the next ping |
| WebSocketProtocols.Connection.StopKeepalive | uvicorn/protocols/websockets/websockets_sansio_impl.py:326-333 | cancels both keep-alive timers |
| WebSocketProtocols.Connection.Receive | uvicorn/protocols/websockets/websockets_sansio_impl.py:544-549 | the oldest event is taken, and reads resume when the queue is empty |
| WebSocketProtocols.Connection.AppEnds | uvicorn/protocols/websockets/websockets_sansio_impl.py:414-415 | the transport is closed unless a close timer will do it |
| WebSocketProtocols.Connection.Shutdown | uvicorn/protocols/websockets/websockets_sansio_impl.py:171-186 | cancels the timers, tells the application and closes |
| WebSocketProtocols.Connection.ConnectionLost | uvicorn/protocols/websockets/websockets_sansio_impl.py:135-154 | cancels every timer and tells the application |
| WebSocketProtocols.WebSocketsSansIOProtocol.DataReceived | uvicorn/protocols/websockets/websockets_sansio_impl.py:188-193 | one read: its events in order, or a parser error |
| WebSocketProtocols.WebSocketsSansIOProtocol.HandleEvent | uvicorn/protocols/websockets/websockets_sansio_impl.py:195-213 | one event of a read |
| WebSocketProtocols.WebSocketsSansIOProtocol.HandleConnect | uvicorn/protocols/websockets/websockets_sansio_impl.py:217-263 | the handshake request: refused by the library, or the application starts |
| WebSocketProtocols.WebSocketsSansIOProtocol.HandleFragment | uvicorn/protocols/websockets/websockets_sansio_impl.py:265-280 | fragments are gathered into a message |
| WebSocketProtocols.WebSocketsSansIOProtocol.SendReceiveEventToApp | uvicorn/protocols/websockets/websockets_sansio_impl.py:282-301 | a message is delivered, discarded after the close frame, or fails its decoding |
| WebSocketProtocols.WebSocketsSansIOProtocol.HandleClose | uvicorn/protocols/websockets/websockets_sansio_impl.py:368-384 | the peer's close answers ours, or is announced |
| WebSocketProtocols.WebSocketsSansIOProtocol.Send | uvicorn/protocols/websockets/websockets_sansio_impl.py:425-542 | `send` in each phase of the connection |
| WebSocketProtocols.WebSocketsSansIOProtocol.Serve | uvicorn/protocols/websockets/websockets_sansio_impl.py:50-549 | method calls for any sequence of events that the environment allows leave the object in the state that the specification's run reaches |
| WebSocketProtocols.WebsocketBuffer.Extend | uvicorn/protocols/websockets/wsproto_impl.py:48-55 | the buffer holds the concatenation of the fragments, and reports when it exceeds the limit |
| WebSocketProtocols.WSProtocol.DataReceived | uvicorn/protocols/websockets/wsproto_impl.py:163-175 | one read: its events in order, or a protocol error |
| WebSocketProtocols.WSProtocol.HandleEvent | uvicorn/protocols/websockets/wsproto_impl.py:177-192 | one event of a read; after the close frame only the peer's close counts |
| WebSocketProtocols.WSProtocol.HandleMessage | uvicorn/protocols/websockets/wsproto_impl.py:255-271 | a fragment extends the message, which is delivered when finished or refused when too large |
| WebSocketProtocols.WSProtocol.HandleClose | uvicorn/protocols/websockets/wsproto_impl.py:273-284 | the peer's close answers ours, or is announced |
| WebSocketProtocols.WSProtocol.Send | uvicorn/protocols/websockets/wsproto_impl.py:377-493 | `send` in each phase of the connection |
| WebSocketProtocols.WSProtocol.Serve | uvicorn/protocols/websockets/wsproto_impl.py:68-500 | method calls for any sequence of events that the environment allows leave the object in the state that the specification's run reaches |
| Supervisor.NoChildIsLost | uvicorn/supervisors/multiprocess.py:196-282 | after every turn of the loop there are as many workers as asked for, at least one; every child started is among them or joined; unless stopping, they are exactly the children not told to stop; every signal is handled once, in order, or still queued |
| Supervisor.AllJoinedAtTheEnd | uvicorn/supervisors/multiprocess.py:165-208 | when `run` returns every child ever started has been joined |
| Supervisor.RestartKeepsCapacity | uvicorn/supervisors/multiprocess.py:173-194 | at no moment of a restart are fewer workers in service than were asked for, where a new child counts once it has reported ready; each worker is told to stop only when the child that takes its place was started, its server has started, and it has just reported so |
| Supervisor.HealthCheckKeepsCapacityExactly | uvicorn/supervisors/multiprocess.py:214-239 | a round of health checks keeps the number of workers at all times if and only if it finds every one alive, because it kills before it starts |
| Supervisor.HealthCheckCanDropToNone | uvicorn/supervisors/multiprocess.py:218-239 | a single worker found dead is killed before its replacement is started, so that for a moment there is none |
| SupervisorSignals.WorkersAsAsked | uvicorn/supervisors/multiprocess.py:241-282 | after any turns the number of workers is a fold over the signals handled: those at the start, one more for each SIGTTIN, one fewer for each SIGTTOU that finds more than one; and if SIGINT, SIGTERM or SIGBREAK was handled the supervisor is stopping |
| SupervisorSignals.SignalDoes | uvicorn/supervisors/multiprocess.py:251-282 | what each signal but SIGHUP does to the workers, their number and the end, and that one without a handler changes nothing |
| SupervisorSignals.HupReplaces | uvicorn/supervisors/multiprocess.py:173-194 | SIGHUP replaces the workers in front of the first replacement that is cut short or not ready, one for one by new children, and all of them if there is none |
| SupervisorSignals.HealthRoundDoes | uvicorn/supervisors/multiprocess.py:214-239 | a worker found alive stays; one found dead is killed, joined and replaced, up to the first that failed to start or is found when the end is asked for, which stops the supervisor |
| SupervisorSignals.RunStopsWorkers | uvicorn/supervisors/multiprocess.py:165-208 | when the loop ends every worker in service is told to stop and then joined, and nothing is started any more |
| Multiprocess.Multiprocess.InitProcesses | uvicorn/supervisors/multiprocess.py:159-163 | starts the workers |
| Multiprocess.Multiprocess.RestartAll | uvicorn/supervisors/multiprocess.py:173-194 | replaces the workers one by one, in place |
| Multiprocess.Multiprocess.KeepSubprocessAlive | uvicorn/supervisors/multiprocess.py:214-239 | replaces dead workers in place, or stops |
| Multiprocess.Multiprocess.HandleSignals | uvicorn/supervisors/multiprocess.py:241-249 | the signals of a snapshot, in order |
| Multiprocess.Multiprocess.RemoveSignal | uvicorn/supervisors/multiprocess.py:243-243 | the first occurrence leaves the queue |
| Multiprocess.Multiprocess.HandleSignal | uvicorn/supervisors/multiprocess.py:251-282 | what each signal does |
| Multiprocess.Multiprocess.HandleTtin | uvicorn/supervisors/multiprocess.py:267-272 | one worker more |
| Multiprocess.Multiprocess.HandleTtou | uvicorn/supervisors/multiprocess.py:274-282 | one worker fewer, but never none |
| Multiprocess.Multiprocess.TerminateAll | uvicorn/supervisors/multiprocess.py:165-167 | terminates every worker |
| Multiprocess.Multiprocess.JoinAll | uvicorn/supervisors/multiprocess.py:169-171 | joins every worker |
| Multiprocess.Multiprocess.Run | uvicorn/supervisors/multiprocess.py:196-208 | the main loop, then every worker is terminated and joined |
| Readiness.ReadyIsSound | uvicorn/supervisors/multiprocess.py:38-60 | answers never outnumber pings, and a check that reads True is of a worker whose server has started |
| Readiness.StaleAnswersAreBounded | uvicorn/supervisors/multiprocess.py:38-60 | a started worker is reported not ready exactly while answers given before it started are still in the pipe |
| Readiness.WaitedIsSound | uvicorn/supervisors/multiprocess.py:85-96 | `wait_until_ready` over any turns: True exactly if an answer it reads says so, and then the worker's server has started |
| Readiness.Process.Healthcheck | uvicorn/supervisors/multiprocess.py:38-47 | a ping, and the oldest answer in the pipe or none |
| Readiness.Process.WaitUntilReady | uvicorn/supervisors/multiprocess.py:85-96 | True exactly if an answer it reads says so, and then the worker's server has started |
| Wsgi.NoLostWakeup | uvicorn/middleware/wsgi.py:146-155 | a sender waiting on a queue that is not empty finds the event set, or a callback that sets it posted or about to be |
| Wsgi.SentInOrder | uvicorn/middleware/wsgi.py:146-193 | what is sent is, in order and once each, what the application has handed over, by a fold over its calls of `start_response` and its chunks: the first start message, every chunk, and the empty last body |
| Wsgi.NothingIsLeftUnsent | uvicorn/middleware/wsgi.py:137-151 | when nothing more can happen after the end is appended, the sender has returned and has sent everything that the application handed over before it |
| Wsgi.WSGIResponder.ReadBody | uvicorn/middleware/wsgi.py:121-132 | the request body is the concatenation of the messages' bodies up to the last |
| Wsgi.WSGIResponder.StartResponse | uvicorn/middleware/wsgi.py:157-175 | one start message at most is appended |
| Wsgi.WSGIResponder.AppendBody | uvicorn/middleware/wsgi.py:178-192 | a chunk, or the empty last body, is appended |
| Wsgi.WSGIResponder.Close | uvicorn/middleware/wsgi.py:139-141 | the end is appended and the event set |
| Wsgi.WSGIResponder.SenderLooks | uvicorn/middleware/wsgi.py:147-153 | the oldest entry is taken, or the sender goes to wait |
| Wsgi.WSGIResponder.SenderWaits | uvicorn/middleware/wsgi.py:154-155 | returns at once if the event is set |
| ProxyHeaders.ResolvesRightmostUntrusted | uvicorn/middleware/proxy_headers.py:169-187 | the client is the rightmost entry that is not trusted, or the leftmost if all are |
| ProxyHeaders.PrependingChangesNothing | uvicorn/middleware/proxy_headers.py:179-183 | entries to the left cannot change the client once one further right is not trusted |
| ProxyHeaders.JoiningKeepsEntries | uvicorn/middleware/proxy_headers.py:54-67 | splitting headers joined by ", " gives the entries of each header in turn (section 5.3 of RFC 9110) |
| ProxyHeaders.ClientCannotBeForged | uvicorn/middleware/proxy_headers.py:28-61 | headers that a client sends ahead of those of the proxies do not change the address the application sees |
| ProxyHeaders.HostPortReadsBack | uvicorn/middleware/proxy_headers.py:95-102 | a host without colons, bare or with a port, is read back as written |
| ProxyHeaders.BracketsReadBack | uvicorn/middleware/proxy_headers.py:78-93 | a bracketed host, bare or with a port, is read back as written |
| ProxyHeaders.TrustedIffConfigured | uvicorn/middleware/proxy_headers.py:108-167 | a peer is trusted if and only if everyone is, or it is named and some configured text covers it: the same address in any notation, a network that holds it, or, for a name that is no address, the same text |
| ProxyHeaders.UncoveredIsIgnored | uvicorn/middleware/proxy_headers.py:28-36 | the headers of a peer that the setting does not cover change nothing, whatever they are |
| ProxyHeaders.CoveredSetsClient | uvicorn/middleware/proxy_headers.py:36-61 | for a covered peer the client is the host and port that the forwarded entries name: the rightmost that the setting does not cover, or the leftmost if all are covered; unchanged if there is none or its host is empty |
| ProxyHeaders.CoveredSetsScheme | uvicorn/middleware/proxy_headers.py:37-52 | for a covered peer the scheme follows the last x-forwarded-proto if it is one of the four names, http and https becoming ws and wss on a websocket, and is otherwise unchanged |
| ProxyHeaders.NoPortReadsBack | uvicorn/middleware/proxy_headers.py:95-102 | a host followed by a colon is read with its port if what follows is a number without colons, and taken whole otherwise, as an IPv6 address is |
| ProxyHeaders.BadBracketsReadBack | uvicorn/middleware/proxy_headers.py:78-93 | a bracket that is not closed, or is followed by anything but a colon, leaves the text whole; a port that is no number leaves the host without one |
| ProxyHeaders.TrustedHosts.constructor | uvicorn/middleware/proxy_headers.py:108-147 | the setting is sorted into addresses, networks and literals |
| ProxyHeaders.TrustedHosts.Compute | uvicorn/middleware/proxy_headers.py:162-167 | trust by address, network or literal |
| ProxyHeaders.TrustedHosts.Cached | uvicorn/middleware/proxy_headers.py:147-160 | the bounded cache always agrees with what would be computed |
| ProxyHeaders.TrustedHosts.Contains | uvicorn/middleware/proxy_headers.py:149-160 | `host in trusted_hosts` |
| ProxyHeaders.TrustedHosts.GetTrustedClientAddress | uvicorn/middleware/proxy_headers.py:169-187 | the early-return loop finds the client of the specification |
| ProxyHeaders.ProxyHeadersMiddleware.Call | uvicorn/middleware/proxy_headers.py:28-61 | scheme and client of the scope |
| ReloadDirs.OutermostIsTheOnlyCover | uvicorn/config.py:174-182 | the directories under no other are the one and only antichain of the given ones that covers them all, whatever the order of the loops |
| ReloadDirs.Prune | uvicorn/config.py:174-182 | the pruning loops leave exactly the directories under no other |
| ReloadDirs.RemoveExcluded | uvicorn/config.py:324-332 | the removal loops leave exactly the directories neither excluded nor under an excluded one |
| ReloadDirs.WatchedIsRight | uvicorn/config.py:316-332 | nothing watched is excluded or nested, and every given directory that is not excluded is covered |
| AutoSniff.FragmentationIrrelevant | uvicorn/protocols/http/auto_zttp_impl.py:68-89 | for every split of a stream into reads: undecided exactly while it is a proper prefix of the preface, HTTP/2 exactly if it starts with it, and the protocol chosen receives the whole stream |
| AutoSniff.AutoZttpProtocol.DataReceived | uvicorn/protocols/http/auto_zttp_impl.py:68-76 | one read before the choice |
| AutoSniff.AutoZttpProtocol.Serve | uvicorn/protocols/http/auto_zttp_impl.py:44-89 | all reads of a connection, before and after the switch |
| Lifespan.NeverBlockedByAnEndedApp | uvicorn/lifespan/on.py:47-100 | `startup` and `shutdown` return exactly when their outcome has come, and are blocked only while the application's task still runs |
| Lifespan.OutcomesInOrder | uvicorn/lifespan/on.py:102-134 | at most one startup outcome is accepted, then at most one shutdown outcome, and a failed startup makes the server exit |
| Lifespan.ExitsExactly | uvicorn/lifespan/on.py:58-76 | the server is made to exit if and only if a wait of `startup` or `shutdown` returned after the failure it waits for was reported, or after the application raised when the setting is "on", by a fold over the events |
| Lifespan.EventsDelivered | uvicorn/lifespan/on.py:54-70 | the application is sent one startup event and then one shutdown event unless it has raised, and what it has not received of them is queued |
| Lifespan.LifespanOn.Startup | uvicorn/lifespan/on.py:47-56 | `startup` up to its wait |
| Lifespan.LifespanOn.StartupReturns | uvicorn/lifespan/on.py:58-62 | `startup` after its wait |
| Lifespan.LifespanOn.Shutdown | uvicorn/lifespan/on.py:64-70 | `shutdown`, which waits only if no error has occurred |
| Lifespan.LifespanOn.ShutdownReturns | uvicorn/lifespan/on.py:72-76 | `shutdown` after its wait |
| Lifespan.LifespanOn.AppEnds | uvicorn/lifespan/on.py:87-100 | the end of the task sets both events |
| Lifespan.LifespanOn.Send | uvicorn/lifespan/on.py:102-134 | a message is accepted in its state only |

## Left out

- Byte-level request parsing, HPACK, WebSocket framing, masking and compression, TLS, sockets, process spawning and signal delivery: they belong to libraries or the operating system, and appear as events of the environment.
- `h11_impl.py`, `zttp_impl.py` and `websockets_impl.py`: their framing and state live in libraries that are not part of this model.
- Http1Protocol.HttpToolsProtocol.DataReceived: the 400 response to a request that does not parse and the upgrade to a WebSocket are not modelled; each ends the connection's HTTP/1.1 life.
- Http1Protocol.HttpToolsProtocol.OnHeadersComplete: the early return for a request that asks for an upgrade is not modelled, nor is the 503 response over the concurrency limit: the refusal is an application like any other here.
- Http1Protocol.HttpToolsProtocol.OnBody: the guard for a request that asks for an upgrade is not modelled.
- Http1Protocol.HttpToolsProtocol.OnMessageComplete: the guard for a request that asks for an upgrade is not modelled.
- Http2Protocol.ZttpH2Protocol.HandleRequest: which application is started is not modelled; during a shutdown it is one that answers 503.
- Waiting for a writable transport: `send` is modelled from where that wait ends; the event it waits for is in `Flow.FlowControl`.
- Bytes written after the transport has been closed are counted as written; asyncio may drop them.
- Two calls of `receive` at once on one cycle.
- Http1ReadBack.ConnectionReadsBack: says what is read up to the first response that is not readable. Not readable are a response whose final status is an interim one (1xx), one with headers for which the client and the server disagree on the body (exactly those of `FramingAgrees`), and a 204 or 304 that leaves bytes on the wire (exactly those of `BodylessLeavesNothing`).
- Http1Wire.ReadMessageOf: the reader has no rule for the 2xx answer to a CONNECT request, whose stream becomes a tunnel (section 6.3 of RFC 9112).
- Http1Runs.LengthAccounted: of a response whose start message was refused it gives the bytes, but no declared length.
- Http2Runs.StreamCallsInOrder: of a stream whose start message was refused it gives the end and the data, but not the order of the calls, for the reason that `GrammarExactly` gives.
- Http2Protocol.RequestResponseCycle.Send: records the calls made on the library's stream, not the bytes that the library makes of them.
- Http2Uploads.EndIsSaidOnce: is about a stream on which no data and no second end follow the end of the request, as section 5.1 of RFC 9113 asks of the peer and the library enforces.
- WebSocketEvents.MessagesReachPeer: of what is written it records the application's messages and its close; the library's own frames (pings, replies, and the close frames of failures and shutdown) are not, nor is a message without data, which only `wsproto` refuses.
- Http1Effects.FailureReads500: is about default headers that `send` can take and that do not frame the body themselves.
- Header values are taken as byte strings and `int` is modelled on ASCII and ISO 8859-1 text; digits outside them, which `int` also accepts in decoded UTF-8, are not, and neither is the limit on the number of digits beyond which `int` raises.
- WebSocket text is held as its UTF-8 bytes, and whether a completed text message decodes is part of the event that completes it.
- The bytes and the content of WebSocket denial and 500 responses, which may be sent more than once.
- The two WebSocket implementations repeat many methods word for word; the classes share those through `WebSocketProtocols.Connection`, an object of its own that the source does not have.
- Logging, access logs, scope construction, percent-decoding, the response that `Process` logs: plumbing.
- Supervisor.AllJoinedAtTheEnd: `join` is taken to return; a worker that never exits would block it.
- `Multiprocess` on Windows, whose signals differ in name only.
- A child is the number of its `Process` object; what the operating system does to it is given by the answers of health checks.
- Readiness.Process.WaitUntilReady: time is the number of turns until the deadline.
- Wsgi.WSGIResponder.StartResponse: the response headers, the exception information that `start_response` keeps for the end, and an ASGI `send` that raises, are not modelled; nor is `build_environ`.
- Parsing of IP addresses and networks: an uninterpreted function from text to an optional address.
- ReloadDirs.Prune: paths are resolved already, and which of them are directories is given; globbing, the include and exclude patterns, and the fallback to the current directory are not modelled.
- AutoSniff.AutoZttpProtocol.DataReceived: the timeout before the choice is a flag; its firing closes the transport and nothing else.
