# rtvbp-go: a verified model of the session and transport protocol

This Dafny project models the concurrent core of rtvbp-go and proves what it keeps: sessions that
exchange requests and responses over a transport, their shutdown, the WebSocket and the in-memory
transport, the audio byte path, and the message and handler layer underneath.

`dafny verify dfyconfig.toml` checks the whole project.

## How the model is built

Concurrent parts are step systems: a datatype `State`, a datatype `Step`, `Enabled(s, step)` and
`Do(s, step)`. Every goroutine is a program counter. A region under a mutex, a channel operation, a
`sync.Once` transition and a call into user code are one step each; a `select` with several ready
cases takes any of them; a timeout or a cancellation may happen at every step. Main results hold for
every run, that is, for every sequence of enabled steps of any length from the initial state.

Objects that the source updates in place are classes whose methods are specified by the full new
state; ghost histories tie them to the step systems.

| module | source | subject |
|---|---|---|
| `Proto` | `proto/*.go` | messages, validation, JSON form, error chains |
| `Transport` | `transport.go` | the contract a session relies on: no forgery, no duplication |
| `Correlation` | `session_request.go`, `session.go`, `request.go` | two sessions, callers, timeouts, one goroutine per message |
| `CallFates` | `session_request.go`, `session.go` | what the steps of a run of `Correlation` made of its calls, packets, events, arrivals and answers |
| `PendingTable` | `session_request.go` | the pending map and its one-slot channels as objects |
| `Lifecycle` | `session.go`, `session_state.go` | close callers, reader, cancellation, finalizer and OnBegin racing |
| `LifeOutcomes` | `session.go` | what the steps of a run of `Lifecycle` made of state, done channel, callers and close handlers |
| `SessionObject` | `session.go` | the session's fields as an object |
| `Handlers` | `handler.go`, `request.go`, `request_middleware.go` | from an incoming request to its responses |
| `HandlerGoroutine` | `session.go` | `Handlers` refines the handler goroutine of `Correlation` |
| `ClientHandler` | `proto/protov1/handler.go` | dispatch table, initialization gate, termination, their mutex |
| `ClientFates` | `proto/protov1/handler.go` | how the threads of `ClientHandler` ended, by the steps of the run |
| `Frames`, `Outbound`, `Inbound` | `transport/ws/*.go` | queues, sender, drainers, reader, dispatcher, control channel |
| `OutboundFlow` | `transport/ws/transport.go` | what the queue of `Outbound` accepted, why its consumers stopped, how one frame goes out |
| `WebsocketPair` | `transport/ws/*.go` | two WebSocket transports joined refine `Transport` |
| `PairFlow` | `transport/ws/*.go` | texts and audio across a pair, in order, from end to end |
| `WireOrder` | `transport/ws/transport.go` | when frames go out in the order in which the queue accepted them |
| `ReplyOrder` | `proto/protov1/handler.go`, `session.go` | `Lifecycle` and `Outbound` together |
| `HookFates` | `proto/protov1/handler.go`, `session.go` | which frames the hooks of `ReplyOrder` sent and how they were answered |
| `Direct` | `transport/direct/channel.go` | the in-memory transport refines `Transport` |
| `Cargo` | `session.go`, `proto/message.go` | session messages as text frames of a transport |
| `WebsocketSessions`, `DirectSessions` | `session.go`, `transport/*/*.go` | two sessions and their transports as one system refine `Correlation` |
| `Loopback` | `audio/loopback.go` | the monitor, readers and wake-ups |
| `AudioBuffers` | `audio.go` | the cross-wired bounded buffers |
| `CopyLoop` | `audio/stream.go` | the copy loop |
| `AudioChain` | `audio.go`, `audio/*.go` | any chain of buffers and copy loops |
| `AudioPath` | `audio.go`, `audio/*.go` | the buffers, the loopback and the copy loop are the parts of `AudioChain` |
| `AudioInfo` | `audio_observe.go`, `proto/protov1/audio_info_event.go` | observers and counters |

## Where the code and its documentation part

- `Close` of the WebSocket transport is documented to send everything buffered
  (`transport/ws/transport.go:45-47`). The teardown it triggers closes the connection alongside the
  drain. `Outbound.CloseCanLoseFrames` is such a run. `Outbound.CloseDeliversIff` gives the exact
  condition before the call, `Outbound.HowDrainsEnd` accounts for what is missing, by every way a drain ends.
- A drain may overtake the sender, so frames may go out in another order than they were accepted in.
  `WireOrder.DrainCanOvertake` is such a run, `WireOrder.CloseKeepsOrderIff` gives the exact condition.
- `closed` is not a final state: an OnBegin that returns late overwrites it.
  `Lifecycle.ActiveOverwritesClosed` is such a run; `Lifecycle.ClosedIsTerminalIff` gives the exact condition.
- A request may be answered twice, once, or not at all: `Handlers.AnsweredTwiceIff`,
  `Handlers.AnsweredOnceIff` and `Handlers.UnansweredIff` say when. `Handlers.FailingHookAnswersTwice` and
  `Handlers.EmptyErrorGoesUnanswered` are such requests; in `Correlation.ErrorMayOvertakeResult` the second
  answer is resolved first and the call fails.
- The length an `audio.buffer.clear` request reports (`proto/protov1/audio.go:14-16`) is read before the
  reset. `AudioChain.InterveningWriteMisreports` and `AudioChain.OverlappingClearsMisreport` are runs in which
  it is wrong; `AudioChain.ReportsAreRightIff` says what others may do between the two calls for it to be right.
- `Signal` wakes one reader: with two or more readers of a loopback one can be left waiting although
  bytes are there (`Loopback.StrandingNeedsTwoReaders`).
- The data of a response error travels under the JSON key `any`; the model follows the code.

## Assumptions

- `encoding/json` is a structural JSON value: printing loses only the Go types of payloads, and
  object keys are distinct and matched exactly. Where bytes are at issue (`Cargo`), decoding what was
  encoded gives the same JSON value.
- The ring buffer is a bounded FIFO with close and reset; `bytes.Buffer` is an unbounded FIFO.
- The WebSocket connection is a sink that may fail at any write and a source of the frames written by
  the peer, in order; control frames are consumed inside it. It reports `net.ErrClosed` only when closed,
  and `ErrCloseSent` only after a close frame, of the transport's or its own in answer to the peer's.
- `Run` is called at most once per session. User functions return and do not panic.
- Fresh request ids are assumed only where a statement says `FreshIds`.

## Model

| member | source | states |
|---|---|---|
| `Correlation.EndToEndCorrelation` | `session_request.go:31-71` | in every run of two sessions each completed call consumed exactly one response, which carries its id, which a handler goroutine of the peer emitted for a request this side really sent (with fresh ids: this very call), and no response completes two calls |
| `Correlation.ArrivalIsTraced` | `session.go:136-166` | a response put on a call's channel is traced over both links, through the peer's goroutine, to a sent request with its id |
| `Correlation.AtMostTwoResponses` | `request.go:65-71` | an incoming request is handled by one goroutine at most; it gets at most one response accepted, or two after its hook failed; every response on the wire belongs to one goroutine |
| `Correlation.ResolveNeverBlocks` | `session_request.go:31-43` | whenever the pending mutex is free every entry stands under its own id with a never-used channel, so resolving an arrived response is always enabled |
| `Correlation.PendingKeysAreOpenCalls` | `session_request.go:16-66` | with fresh ids the keys of the pending map are exactly the ids of calls neither resolved nor timed out; of the calls that have returned exactly those whose send failed stay in it |
| `Correlation.FailedSendStaysOpen` | `session_request.go:54-56` | a call whose send failed can never be resolved; which calls these are is `CallFates.SentIffPosted` |
| `Correlation.ReusedIdLosesEntry` | `session_request.go:25-63` | without fresh ids the law fails: a run in which one call's timeout removes another open call's entry |
| `Correlation.ErrorMayOvertakeResult` | `session.go:136-166` | a run in which one request gets two responses accepted, the error is resolved before the result, and the call returns once, with the error |
| `Correlation.OutcomeIsFinal` | `session_request.go:58-71` | over any run a call's outcome, once there, stands, sent requests stay sent and emitted responses stay emitted |
| `Correlation.StepKeepsGood` | `session_request.go:16-71` | every step of one session, whatever the other does, keeps the joint invariant of pending map, channels, frames in flight and handler goroutines |
| `Correlation.StepKeepsExact` | `session_request.go:25-63` | with fresh ids every step keeps the pending map equal to the open calls |
| `Correlation.StepsAreLinkMoves` | `transport.go:13-17` | sessions use no more of a transport than its contract: each step is one contract step in each direction |
| `CallFates.SentIffPosted` | `session_request.go:51-66` | in every run, a call waits, times out or is answered if and only if exactly one request packet of its own was accepted; a call that was tried and has no packet has returned with the send error at once |
| `CallFates.CallsEndAsRun` | `session_request.go:46-72` | the calls of a run are the requests made, in order, and each is unsent, sent, refused, timed out, forgotten or answered exactly if the steps of the run say so |
| `CallFates.WaitingMayReturn` | `session_request.go:58-71` | a call that waits may time out at any moment, even with its response there, and its entry is gone then; with a response there it may as well return that |
| `CallFates.EventsAreNotified` | `session.go:51-71` | in every run the events on the link are exactly the valid ones whose write the transport took, in order |
| `CallFates.ResponsesAreGiven` | `session.go:136-152` | in every run, a response on the link is the result its goroutine replied with, or, without a result, the error that its handler, its hook or its refused reply gave |
| `CallFates.AnswerIsGiven` | `session_request.go:65-70` | end to end, in every run: what an answered call reads is, normalised, what a goroutine of the peer gave while serving a request sent from here with the call's id |
| `CallFates.DeliveredIsTaken` | `session.go:215-238` | nothing delivered is dropped: each delivered request has started its goroutine, and each delivered response is on its way to the pending map |
| `CallFates.NoResponseIsLost` | `session_request.go:31-43` | with fresh ids: once a delivered response has been resolved, the call with its id is answered, about to be, or has timed out |
| `Transport.NoForgeryNoDuplication` | `transport.go:13-17` | under the contract only accepted packages are delivered, each at most once |
| `HandlerGoroutine.DispatcherIsServeRun` | `session.go:136-152` | for every request, handler table and fate of the writes, dispatching is a complete run of the handler goroutine of the two-session model and puts the same responses on the link |
| `Cargo.MessageAccepted` | `session.go:56-71` | writing a message's text frame to a link is accepting its packet on the link seen through its messages |
| `Cargo.MessageDelivered` | `session.go:215-238` | delivering a text frame delivers its packet, once, and the session parses the message that was sent |
| `WebsocketSessions.StepRefines` | `session.go:206-241` | every step of two sessions on WebSocket transports is a step of the two-session model, or one of the transport that the sessions do not see |
| `WebsocketSessions.CorrelatedOverWebsockets` | `session_request.go:46-72` | end-to-end correlation with queues, sockets, drainers and teardown in between, in every run |
| `DirectSessions.StepRefines` | `session.go:206-241` | the same refinement over the in-memory transport |
| `DirectSessions.CorrelatedOverDirect` | `transport/direct/channel.go:72-80` | end-to-end correlation of two sessions joined in memory, in every run, closed or not |
| `PendingTable.Table.constructor` | `session.go:287` | the table starts empty |
| `PendingTable.Table.New` | `session_request.go:16-28` | registers a fresh entry with an empty channel under its id and keeps the table's invariant |
| `PendingTable.Table.Resolve` | `session_request.go:31-43` | the entry of that id, if any, gets the response in its free slot and leaves the map; nothing else changes |
| `PendingTable.Table.Forget` | `session_request.go:60-64` | the timeout removes the key of the request and keeps the table's invariant |
| `Lifecycle.ChannelsCloseOnce` | `session.go:73-122` | in no run is the trigger channel or the finalized channel closed twice, and at most one close callback starts |
| `Lifecycle.CallbackPrecedesFinalizer` | `session.go:83-90` | while a close callback runs it is the only one, and only cancellation can have started the finalizer |
| `Lifecycle.CloseNilMeansHandlersRan` | `session.go:93-122` | when a Close has returned nil, every handler registered before finalization was called exactly once, in registration order |
| `Lifecycle.StateHistory` | `session_state.go:15-26` | the state writes of every run interleave a prefix of closing, closed with at most one active or failed, and the field holds the last write; which of the two is `LifeOutcomes.BeginDecides` |
| `Lifecycle.ClosedIsTerminalIff` | `session.go:244-253` | a closed session stays closed in every continuation if and only if OnBegin has made its write |
| `Lifecycle.LateBegin` | `session.go:244-253` | from every state where OnBegin has not written yet, a continuation exists in which it overwrites the state and touches nothing of the finalizer |
| `Lifecycle.ActiveOverwritesClosed` | `session.go:107-122` | a run from the start in which the session is finalized and then active again |
| `Lifecycle.DoneAtMostTwice` | `session.go:171-204` | the done channel is sent at most two values, at most one nil and at most one error |
| `Lifecycle.FinalizerProgress` | `session.go:191-204` | once triggered the finalizer is never blocked before it closes the finalized channel; each of its steps lowers a measure by one and no other step raises it, except that a late registration adds one |
| `Lifecycle.EnoughStepsFinalize` | `session.go:107-122` | every run from a triggered state with enough finalizer steps ends with the finalized channel closed once, whether or not anyone reads done |
| `Lifecycle.FinalizedStays` | `session.go:121` | once closed the finalized channel stays closed, with no second close |
| `Lifecycle.StepKeepsGood` | `session.go:73-253` | every step of every goroutine keeps the invariant over once, gate, finalizer, closers, state history and done |
| `Lifecycle.DoCloseAlone` | `session.go:73-91` | doClose without interference is a run that leaves the gate spent and triggered, or untouched when the session is closing or the gate spent |
| `Lifecycle.ReaderCloseAlone` | `session.go:215-219` | the reader that finds the transport closed does the same without a callback and does not wait |
| `LifeOutcomes.BeginDecides` | `session.go:244-253` | in every run: active is written only, and in the end always, after OnBegin succeeded, failed only and always after it failed; done is sent an error if and only if Run could not start or a failed OnBegin has reported, and nil if and only if the finalizer has ended |
| `LifeOutcomes.ClosersEndAsRun` | `session.go:73-105` | every caller of doClose is where its steps put it: Close waits and returns nil only through the finalized channel, the reader never waits |
| `LifeOutcomes.ReaderClosesOnce` | `session.go:215-219` | at most one caller is the reader, and there is one if and only if it has found the transport closed |
| `LifeOutcomes.WaitingMayReturn` | `session.go:98-104` | a Close that waits may give up at any moment, finalized or not; it may return nil if and only if the session is finalized |
| `LifeOutcomes.DoneIsQueued` | `session.go:168-204` | the done channel holds what was sent and not received, in order |
| `LifeOutcomes.TransportIsClosed` | `session.go:186-204` | once the finalizer is past its handlers it has called the audio's first, and the transport's where Run registered it |
| `Lifecycle.FinalizeAlone` | `session.go:107-122` | finalize without interference is a run that calls all handlers in order, writes closing and closed, and closes the finalized channel |
| `SessionObject.Session.constructor` | `session.go:281-316` | a new session is inactive with one close handler, the closing of both audio sides |
| `SessionObject.Session.OnClose` | `session.go:260-262` | appends a close handler |
| `SessionObject.Session.DoClose` | `session.go:73-91` | triggers the shutdown and runs the callback exactly if the session is neither closing nor closed and nobody triggered it before; its effect is a run of the lifecycle |
| `SessionObject.Session.Finalize` | `session.go:107-122` | calls exactly the registered handlers in order, leaves the session closed and finalized; its effect is a run of the lifecycle |
| `ReplyOrder.ReplyBeforeTerminate` | `proto/protov1/handler.go:217-231` | in every run without cancellation, for as long as a close callback runs: no transport close or drain has begun, the wire is a prefix of acceptance order, and a session.terminate already on the wire stands behind the reply that triggered its hook; nothing is said of frames written after the callback has returned |
| `ReplyOrder.ReplyStaysBeforeTerminate` | `proto/protov1/handler.go:217-231` | a session.terminate that was on the wire while its callback ran, before any cancellation, stands behind its reply in every continuation |
| `ReplyOrder.AnsweredTerminateFollowsReply` | `proto/protov1/handler.go:226-229` | in every run, each session.terminate answered while its callback waited and before any cancellation is on the wire behind the reply that triggered it |
| `ReplyOrder.FinalizerClosesTransport` | `session.go:107-117` | once the finalizer has called transport.Close, the transport's teardown has been triggered or was over |
| `HookFates.HooksEndAsRun` | `proto/protov1/handler.go:217-231` | in every run: each hook is one reply, whose text the queue accepted at its place; its close runs a callback; its terminate is a text accepted too; an answer counts as late only after a cancellation |
| `HookFates.TerminateIsAnswered` | `proto/protov1/handler.go:217-231` | a run from the start: reply, close, terminate, and the answer in time, with both frames on the wire in order |
| `Outbound.FramesAreConserved` | `transport/ws/transport.go:205-285` | with the sender and any number of drainers, accepted frames are as a multiset those sent, failed, held by one consumer or queued; none reaches the socket twice; each consumer keeps acceptance order |
| `Outbound.WireIsPrefix` | `transport/ws/transport.go:205-235` | before any Close the frames on the wire are a prefix of those accepted |
| `Outbound.CloseDeliversIff` | `transport/ws/transport.go:48-62` | for every reachable state that is not done: all continuations of Close in which its drain has left the loop have every frame accepted before the call on the wire, if and only if before the call nothing was queued, held by a consumer or failed |
| `Outbound.DrainIsSureIff` | `transport/ws/transport.go:205-213` | the same for every drain, that of the sender loop after cancellation included |
| `Outbound.HowDrainsEnd` | `transport/ws/transport.go:76-100` | by every way a drain ends: the frames accepted before it and missing on the wire are those failed, held by another consumer, or still queued, the last only if the drain stopped at a failed write; if no write has failed, exactly those other consumers hold |
| `Outbound.DrainDeliversIff` | `transport/ws/transport.go:95-98` | when a drain finds the queue empty, all frames accepted so far are on the wire if and only if no write failed and no other consumer holds a frame |
| `WireOrder.OrderWithoutClose` | `transport/ws/transport.go:205-235` | in every run without a Close, cancelled or not, the frames on the wire are in the order in which they were accepted |
| `WireOrder.CloseKeepsOrderIff` | `transport/ws/transport.go:48-62` | for every reachable state that is not done and has seen no Close: every continuation of the first Close keeps that order if and only if the sender loop had left its loop or the connection was closed |
| `WireOrder.DrainCanOvertake` | `transport/ws/transport.go:58-61` | a run in which a drain sends the second frame before the sender has sent the first |
| `Outbound.CloseCanLoseFrames` | `transport/ws/transport.go:48-66` | a run in which a frame accepted before Close is lost because the connection closes before the drain |
| `Outbound.ChannelsCloseOnce` | `transport/ws/transport.go:108-114` | closeChan and doneChan are closed at most once in every run |
| `OutboundFlow.AcceptedIsWritten` | `transport/ws/transport.go:138-166` | in every run the queue accepted exactly the texts written, the audio the pump read, one ping for each enqueued and one close frame for each farewell, each kind in order |
| `OutboundFlow.ConsumersEndAsRun` | `transport/ws/transport.go:205-235` | in every run: the sender loop ends only at the end, a cancellation or a failed write; a drain ends only at an empty queue or a connection that is gone, then says goodbye, then waits; the teardown is triggered by Close, the reader's end or the cancelled sender alone |
| `OutboundFlow.ClosureEndsAsRun` | `transport/ws/transport.go:76-100` | the connection refuses writes as closed if and only if the peer closed it or a close frame of this side is on the socket |
| `OutboundFlow.NoTextAfterTearDown` | `transport/ws/control.go:30-39` | once the control channel is closed no text is accepted any more |
| `OutboundFlow.TextGoesOut` | `transport/ws/transport.go:221-232` | from every resting state a text written is sent, and the sender is ready again |
| `OutboundFlow.AudioGoesOut` | `transport/ws/transport.go:158-164` | the same of a piece of audio |
| `OutboundFlow.PingGoesOut` | `transport/ws/transport.go:218-219` | the same of a ping |
| `OutboundFlow.TearDownAlone` | `transport/ws/transport.go:110-114` | the teardown, once triggered, closes connection, control channel and done channel |
| `OutboundFlow.CancelDrains` | `transport/ws/transport.go:211-213` | a cancelled sender drains, says goodbye and is done |
| `Outbound.StepKeepsGood` | `transport/ws/transport.go:48-100` | every step of writers, sender, drainers and teardown keeps queue, taken frames, consumers and wire consistent |
| `Inbound.PipelineIsFifo` | `transport/ws/transport.go:116-202` | the session receives a prefix of the text frames read, the audio side a prefix of the joined binary frames, in order and without duplicates |
| `Inbound.NothingLostWhileRunning` | `transport/ws/transport.go:171-202` | while the dispatcher lives every frame read is received or still in the pipeline; why it may stop is `Inbound.WhyItStops` |
| `Inbound.WhyItStops` | `transport/ws/transport.go:171-202` | from every good state with a live dispatcher: it stops only at the end or the cancellation, at audio that refuses a message, or at a closed control channel |
| `Inbound.NothingLostUnlessStopped` | `transport/ws/transport.go:171-202` | in every run without these three the dispatcher lives, and every frame read is received or still in the pipeline |
| `Inbound.StopsForGood` | `transport/ws/transport.go:173-177` | told to stop or refused by audio it stops for good and hands on nothing any more |
| `Inbound.ReaderEndsAsRun` | `transport/ws/transport.go:117-136` | what was read is what the run read, and a failed read is the last |
| `Inbound.TextGetsThrough` | `transport/ws/control.go:20-28` | from every resting state a text message reaches the session, and the dispatcher is ready for the next |
| `Inbound.AudioGetsThrough` | `transport/ws/transport.go:191-198` | the same of a binary message and the audio side |
| `Inbound.CloseStopsDispatcher` | `transport/ws/control.go:45-53` | after the closing of the control channel a text message stops the dispatcher and is not delivered |
| `Inbound.WriterKeepsMutex` | `transport/ws/control.go:30-32` | a writer holds the mutex from its lock to its unlock |
| `Inbound.NoSendOnClosed` | `transport/ws/control.go:20-53` | no run sends on the closed control channel or closes it twice, and the mutex admits one of dispatcher, writers and closer |
| `WebsocketPair.PairMeetsContract` | `transport/ws/control.go:20-53` | every step of two joined WebSocket transports is a step of the transport contract, and a delivery hands over the frame it names |
| `WebsocketPair.PairRefinesLink` | `transport.go:13-17` | every run of the pair is a run of the contract |
| `WebsocketPair.PairNeverForgesOrRepeats` | `transport/ws/transport.go:116-285` | a session receives only text frames the other end accepted, each at most once |
| `PairFlow.MediaArrivesInOrder` | `transport/ws/transport.go:116-285` | in every run the texts received, and the audio bytes, are prefixes of those the other end put on the socket, in that order; before any Close, of the texts written there and the audio pumped there |
| `PairFlow.CarriesConsume` | `transport/ws/transport.go:116-136` | each frame is taken from the socket once, control frames too |
| `PairFlow.TextCrosses` | `transport/ws/control.go:20-39` | from every resting state of a pair a text written at one end is received at the other, and the pair rests again |
| `PairFlow.AudioCrosses` | `transport/ws/transport.go:138-202` | the same of audio |
| `Direct.DirectMeetsContract` | `transport/direct/channel.go:28-44` | every step of the in-memory transport is a step of the contract in each direction, and a read hands over the package delivered |
| `Direct.DirectRefinesLink` | `transport.go:13-17` | every run of the in-memory transport is a run of the contract |
| `Direct.ReceivedIsPrefix` | `transport/direct/channel.go:33-44` | the packages that one end's reads hand over in a run are a prefix of those the other end's writes had accepted, all but at most one in flight |
| `Direct.ReadsHandOverWrites` | `transport/direct/channel.go:33-44` | the same from every good state on: exactly the packages accepted and not handed over before, in order |
| `Direct.DirectIsOrdered` | `transport/direct/channel.go:16-40` | over whole runs accepted packages are never taken back, at most one is in flight in each direction, and the shared channel is closed at most once from whichever end |
| `Direct.Closer.Close` | `transport/direct/channel.go:16-20` | closes the channel if nobody has |
| `Direct.DirectTransport.Close` | `transport/direct/channel.go:28-31` | closes the shared channel once for both ends |
| `Direct.DirectTransport.Write` | `transport/direct/channel.go:33-40` | accepts exactly with room and no preference for a closed closer; a refused write changes nothing |
| `Direct.DirectTransport.Receive` | `transport/direct/channel.go:42-44` | takes the package in flight, if any |
| `Direct.New` | `transport/direct/channel.go:48-70` | what one end writes the other reads, and both share one closer |
| `Loopback.LoopbackIsFifo` | `audio/loopback.go:24-56` | reads joined in lock order are a prefix of the successful writes; end of file comes only after close and when all was read; one reader never waits while bytes are there or after close |
| `Loopback.StrandingNeedsTwoReaders` | `audio/loopback.go:31-41` | a reader can be left waiting for what is there if and only if the loopback has two or more readers |
| `Loopback.TwoReadersCanStrand` | `audio/loopback.go:31-47` | a run of that kind for every number of readers from two on |
| `Loopback.Loopback.Write` | `audio/loopback.go:24-33` | fails exactly when closed, else appends everything |
| `Loopback.Loopback.Read` | `audio/loopback.go:35-48` | under the lock: waits exactly when empty and open, ends exactly when empty and closed, else takes as many bytes as were asked for, or all there are, from the front |
| `Loopback.Loopback.Close` | `audio/loopback.go:50-56` | closes and keeps what is buffered |
| `AudioBuffers.AudioChannelSide.Close` | `audio.go:15-19` | closes both directions and keeps what they hold |
| `AudioBuffers.AudioChannelSide.Read` | `audio.go:21-23` | until it has to wait: takes as many bytes as were asked for, or all there are, from the front of its own reading buffer only; ends exactly when that is closed and empty |
| `AudioBuffers.AudioChannelSide.Write` | `audio.go:25-27` | until it has to wait, which it does only with its buffer full: appends the front of what is given to its own writing buffer only; an error exactly when that is closed, done exactly when everything fitted |
| `AudioBuffers.AudioChannelSide.ClearReadBuffer` | `audio.go:29-33` | with no other access between its two calls: reports exactly the bytes it drops, and drops only its reading direction |
| `AudioBuffers.NewAudioChannel` | `audio.go:35-52` | two empty sides of the given capacity, each reading what the other writes |
| `CopyLoop.CopyWithBuf` | `audio/stream.go:13-32` | the loop ends, returns, writes and leaves unread exactly what its specification over the results of reads and writes says |
| `CopyLoop.Copy` | `audio/stream.go:9-11` | the same with a buffer of the given size |
| `CopyLoop.ResetsAreIgnored` | `audio/stream.go:21-24` | removing all reset errors from the reads changes neither result nor delivery |
| `CopyLoop.DeliversChunksInOrder` | `audio/stream.go:14-31` | what is delivered is a prefix of the joined chunks read, and all of it if no write fails |
| `CopyLoop.HowTheLoopEnds` | `audio/stream.go:14-26` | with working writes the loop returns nil if and only if it reaches an end of file, and waits if and only if every read was a chunk or a reset |
| `CopyLoop.LoopAccounts` | `audio/stream.go:13-32` | whatever reads and writes return: the loop ends at the first end of file, the first read error that is no reset, or the first failed write, with that error, and every chunk before was written in full, one write for each |
| `AudioChain.DeliveredIsPrefixOfSurvivors` | `audio.go:21-33` | along any chain of buffers and loops and over any run, what arrived is a prefix of the input with exactly the cleared bytes removed |
| `AudioChain.NothingElseIsLost` | `audio/stream.go:13-32` | once everything upstream is empty, all bytes that were not cleared have arrived |
| `AudioChain.StepsMoveBytes` | `audio.go:21-33` | on the bytes held, a chain step is a write, a read of the front handed to the next stage, or a reset, and no other buffer changes |
| `AudioChain.ClearReportsWithinFlow` | `audio.go:29-33` | whatever others do between its two calls, overlapping clears included, ClearReadBuffer reports what its reset drops if and only if as many bytes came in as were read and cleared |
| `AudioChain.InterveningWriteMisreports` | `audio.go:29-33` | a write between the two calls: zero is reported and all of it dropped |
| `AudioChain.OverlappingClearsMisreport` | `proto/protov1/handler.go:171-182` | two overlapping clears: the second reports bytes that the first had dropped |
| `AudioChain.ReportsAreRightIff` | `proto/protov1/audio.go:14-16` | for any restriction on what others may do between the two calls: every report in every run is right if and only if no allowed step touches that buffer |
| `AudioPath.ReadStage` | `audio.go:21-23` | a read from a side is a chain step from its buffer to the reader's hand |
| `AudioPath.WriteStage` | `audio.go:25-27` | a write to a side is a chain step from the writer's hand to its buffer |
| `AudioPath.FeedStage` | `audio.go:25-27` | a write by the source is a feeding step |
| `AudioPath.ClearStage` | `audio.go:29-33` | an undisturbed clear is a clearing step and reports what it drops |
| `AudioPath.LoopbackWriteIsStep` | `audio/loopback.go:24-33` | a successful write to a loopback is a chain step |
| `AudioPath.LoopbackReadIsStep` | `audio/loopback.go:35-48` | a read of bytes from a loopback is a chain step |
| `AudioPath.LoopIsChainRun` | `audio/stream.go:13-32` | a copy loop between two buffers, with everybody else active between its calls, is a run of the chain, and what it carries is what the loop's own account says it delivers |
| `AudioInfo.ObservableAudio.Read` | `audio_observe.go:17-25` | returns the stream's result and fires OnReadError for an error if set, else OnRead with the count |
| `AudioInfo.ObservableAudio.Write` | `audio_observe.go:27-35` | the same for writes: a call that waits for room fires nothing, one that returns reports what it wrote in all, as an error exactly if the buffer is closed |
| `AudioInfo.ObservableAudio.ClearReadBuffer` | `audio_observe.go:37-43` | reports the bytes dropped |
| `AudioInfo.OnReadHearsEverythingIff` | `audio_observe.go:17-25` | OnRead hears of all bytes read if and only if no OnReadError takes the place of a call that moved bytes |
| `AudioInfo.OnWriteHearsEverythingIff` | `audio_observe.go:27-35` | the same of OnWrite and OnWriteError |
| `AudioInfo.EveryCallIsHeard` | `audio_observe.go:17-35` | with the count callback set each call fires exactly one callback, the error callback instead if that is set and the call failed; without it only failed calls fire |
| `AudioInfo.BytesAreConserved` | `proto/protov1/audio_info_event.go:39-45` | at every step of every interleaving pending, swapped-but-not-added and total sum to all bytes observed |
| `AudioInfo.TotalsAreRunningSums` | `proto/protov1/audio_info_event.go:39-70` | each event's total is the sum of the bytes of all dispatches so far, suppressed ones included, and never decreases |
| `AudioInfo.AudioInfoTracker.OnRead` | `proto/protov1/audio_info_event.go:91-93` | the 64-bit counter follows the unbounded model modulo wrap-around |
| `AudioInfo.AudioInfoTracker.OnWrite` | `proto/protov1/audio_info_event.go:94-96` | the same for writes |
| `AudioInfo.AudioInfoTracker.Dispatch` | `proto/protov1/audio_info_event.go:39-71` | empties both counters, moves them into the totals, and sends an event exactly if a session is stored |
| `AudioInfo.WrapIsInt64` | `proto/protov1/audio_info_event.go:25-31` | a counter shows the one 64-bit number that differs from the true count by a multiple of two to the 64 |
| `AudioInfo.SevenTicks` | `proto/protov1/audio_info_event.go:40-45` | the seven atomic steps of an uninterrupted dispatch amount to that |
| `Handlers.SessionContext.Respond` | `handler.go:52-54` | one attempt, accepted exactly if the message is valid, encodable and taken by the transport |
| `Handlers.SessionContext.HandleTyped` | `request.go:34-74` | the method form agrees with the reference account of handling in its error, its attempts and its calls of the user's function; what they carry is `Handlers.AttemptCarriesResult` |
| `Handlers.SessionContext.Handle` | `request_middleware.go:20-25` | the same through any number of middlewares |
| `Handlers.SessionContext.OnRequest` | `handler.go:99-106` | the same through the dispatch table |
| `Handlers.SessionContext.HandleRequest` | `session.go:136-152` | the same with the answer to an error |
| `Handlers.NewHandler` | `handler.go:122-140` | the table holds exactly the registered methods, each with its last registration |
| `Handlers.HandlingShape` | `request.go:34-74` | a handler makes at most one attempt, with the request's id and version; it is accepted if and only if the guards admit, handling succeeds and the transport takes a valid result; afterwards an error means the hook failed |
| `Handlers.AttemptCarriesResult` | `request.go:52-67` | the attempt carries what the user's function returned for the request's parameters, with the request's id and version |
| `Handlers.ResultTakenIff` | `request.go:34-67` | the result is taken if and only if version and id are good, the guards admit, the parameters are encodable, decode and are valid, the function succeeds with a sound result, and the transport takes it |
| `Handlers.ResultReachesPeer` | `proto/request.go:48-61` | a result taken is the first response, with the value of the user's function, and the peer reads that value, normalised |
| `Handlers.ErrorReachesPeer` | `proto/request.go:53-61` | an error response carries no result and the converted error, and if taken the peer reads that error |
| `Handlers.ReplyDiscipline` | `session.go:136-152` | every request leads to one or two attempts, all with its id and version; two can both succeed only if the first was a result and the hook then failed |
| `Handlers.AnsweredTwiceIff` | `request.go:64-71` | for every table, request and fate of both writes: two responses are accepted if and only if the result was taken, the hook failed, and the hook's error makes a response the transport takes |
| `Handlers.AnsweredOnceIff` | `session.go:136-152` | exactly one is accepted if and only if the result was taken and no error after it, or the result was not and the error was |
| `Handlers.UnansweredIff` | `session.go:145-150` | none is accepted if and only if the result was absent or refused, and the error is no valid response or was refused too |
| `Handlers.AnswersAdd` | `session.go:136-152` | the accepted responses are the result, if taken, and the error, if there is one and it is taken |
| `Handlers.FailingHookAnswersTwice` | `request.go:69-71` | a handler that succeeds with a hook that fails: both answers are accepted |
| `Handlers.CalledOnlyPastGuards` | `request.go:52-56` | the user's function is called at most once, exactly for a registered method, past all guards, with parameters that decode and are valid |
| `Handlers.GuardsOnlyFilter` | `request_middleware.go:20-25` | middlewares change nothing for admitted requests; otherwise the first refusal is the error, and there is neither an attempt nor a call |
| `Handlers.ErrorCodes` | `request.go:34-74` | the error a request is answered with, for every reason in the order of the checks: unknown method, refusing guard, unreadable, invalid, handler's error, invalid result, refused write, failed hook |
| `Handlers.ConvertsFirstInChain` | `proto/error.go:61-68` | the converted error is the first response error of the chain in visiting order, and a 500 with the error's text if there is none |
| `Handlers.FailedRequestIsAnsweredIff` | `session.go:145-150` | the error response of any failed request is accepted if and only if the request has version and id, the error has a code, a text and encodable data, and the transport takes it |
| `Handlers.EmptyErrorGoesUnanswered` | `proto/error.go:29-31` | an error without text leaves its request unanswered |
| `ClientHandler.NewClientTable` | `proto/protov1/handler.go:105-212` | for either value of the flag when a request is checked: the nine methods of the client, the seven that reach telephony or audio behind the guard, session.terminate refused |
| `ClientHandler.ClientAnswers` | `proto/protov1/handler.go:96-103` | with the flag unset a guarded request is answered by one 500 and no user function is called, with the flag set the guard changes nothing; session.terminate is answered 501, or 400 when its parameters are invalid |
| `ClientHandler.GuardedRequestsAreDispatched` | `proto/protov1/handler.go:96-103` | in every run, with everybody interleaved: each guarded request that is done was dispatched with the flag it met in the lock; its operation was called exactly if that dispatch calls it, only after session.initialize had succeeded, and else it was refused and is answered by one 500 |
| `ClientHandler.CalledOnlyAfterInitialization` | `proto/protov1/handler.go:96-103` | in every run, a guarded request inside the lock calls its operation only if session.initialize succeeded before; else it is answered by one 500 |
| `ClientHandler.InitializationGates` | `proto/protov1/handler.go:34-66` | in every run initialization succeeds at most once; every operation called, for a request whose parameters are valid, and every termination comes after it, every refusal before it; with the mutex free the flag holds exactly when the context is stored and the reply was received |
| `ClientHandler.InitializationIsFinal` | `proto/protov1/handler.go:38-40` | the flag never reverts: no continuation initializes again or refuses |
| `ClientFates.ThreadsEndAsRun` | `proto/protov1/handler.go:34-88` | in every run: one thread at most initializes, its request succeeded, and an attempt fails only by its request or because there was one before; a termination goes through, and an audio report (`proto/protov1/audio_info_event.go`) is sent, exactly if initialization had stored the session context |
| `ClientFates.InitializeAlone` | `proto/protov1/handler.go:34-66` | the first initialization, undisturbed and granted, sets the flag and stores the context |
| `ClientHandler.StepKeepsGood` | `proto/protov1/handler.go:34-103` | every step of initialization, guards, termination and audio reports keeps mutex, flags and log consistent |
| `Proto.SentIsAccepted` | `session.go:56-70` | every message that passes the sender's checks is accepted by the peer as the same kind with the same id, name, version and error, payloads equal up to JSON normalisation |
| `Proto.ContentsArrive` | `proto/message.go:67-114` | field by field: the peer reads the kind, ids, name, version, error and JSON values that were sent |
| `Proto.SendableIff` | `proto/response.go:15-39` | events (`proto/event.go`), requests (`proto/request.go`) and responses pass the checks if and only if the version is known, id and name are there, payloads are sound and encodable, and an error has a code and a text |
| `Proto.FaultsIff` | `proto/message.go:40-50` | which complaint a message of any kind meets: version, id, name, error code, error text, payload, the first that applies |
| `Proto.ErrorIff` | `proto/error.go:18-23` | an error decodes if and only if it is an object whose code, if any, is an integer in range and whose message, if any, is a string |
| `Proto.ReplyText` | `proto/error.go:41-43` | the text of a response error is its code in decimal digits and its message |
| `Proto.ParseIff` | `proto/message.go:96-114` | a document is read as an event if it names one, else as a request, else as a response, and refused if and only if a field has the wrong type or it names none |
| `Proto.AcceptedIsStable` | `proto/message.go:67-81` | every accepted input may be sent on, and printing and reading it again gives the same message |
| `Proto.ParsedIsNormal` | `proto/message.go:96-114` | whatever parses can be printed and is its own normal form |
| `Proto.ErrorRoundTrip` | `proto/error.go:18-23` | an error survives printing and reading, its code in full 64-bit range, its data normalised |
| `Proto.EventRoundTrip` | `proto/event.go:13-55` | a sendable event is read back as that event |
| `Proto.RequestRoundTrip` | `proto/request.go:13-76` | a sendable request is read back as that request |
| `Proto.ResponseRoundTrip` | `proto/response.go:8-57` | a sendable response is read back as that response, with or without an error |
| `Proto.NormIsValid` | `proto/message.go:40-50` | normalisation keeps a sendable message valid |

## Left out

- WebSocket client and server, HTTP upgrade, dialing, TLS and JWT: I/O and library wrappers.
- WebSocket framing and close-frame rules (section 5 of RFC 6455): inside the connection library.
- Ring buffer, `bytes.Buffer` and `encoding/json` internals: case-insensitive and duplicate keys, rounding and respelling of numbers in untyped payloads, invalid UTF-8.
- Clocks: timeouts as durations, write deadlines, `ReceivedAt`, ping round-trip times, bytes per second.
- Liveness and deadlock freedom of the WebSocket transport: not guaranteed by the code, which sends on bounded queues under a lock.
- Plain payload types, option setters, logging, debug printing, telephony adapters, DTMF sequence numbers, the pinger: plain data with one-line validation and wrappers without state.
- Panics in user code, a second `Run`, and the data race of registering close handlers while finalizing: registration is one atomic step here.
- The fields `done`, `state` and the like in the Go memory model: every access is taken as atomic.
- DuplexCopy: two copy loops with logging; each is a loop of `CopyLoop`.
- `Correlation.EndToEndCorrelation`: handlers answer through the typed handler and the session; a handler that builds a response of its own is not modelled.
- `CopyLoop.CopyWithBuf`: a reader that returns bytes together with an error is not modelled, as neither the ring buffer nor the loopback does so.
- `Handlers.SessionContext.HandleTyped`: user functions are given by the values they return; `json.Unmarshal` into the parameter type is one of them.
- `AudioBuffers.AudioChannelSide.Read`: a call up to the point where it has to wait; the waiting call goes on in the same way when there is something to read. The same holds of `AudioChannelSide.Write` and room.
- `ClientHandler.NewClientTable`: the guard's closure over the handler is given by the value it reads; `ClientHandler.CalledOnlyAfterInitialization` takes that value from the state in which the request holds the lock.
- `WebsocketSessions.CorrelatedOverWebsockets`: a write the transport refuses may be refused at any time, which allows more runs than the code.
- `AudioBuffers.AudioChannelSide.ClearReadBuffer`: says nothing on whether a closed buffer is open again after its reset; that is up to the ring buffer library.
- `Direct.DirectTransport.Write`: a call that would block is reported instead of waiting.
- `ReplyOrder.ReplyBeforeTerminate`: transport.Close begins at the finalizer's step and the lifecycle may go on before it has returned, which allows more runs than the code.
- `SessionObject.Session.DoClose`: without interference; the racing callers are in `Lifecycle`.
- Audio on a transport created without an audio stream: the code would dereference nil for a binary frame.
