# SmallServer, verified

SmallServer is an HTTP server whose protocol engines and kernel sit behind narrow interfaces. What is its
own is bounded bookkeeping: splitters that see a byte stream in arbitrary pieces, byte budgets, tables of
streams, queues, and kernel resources whose close may fail and must be tried again. This project models
that bookkeeping in Dafny and proves what it promises, for all inputs and over all runs.

`dafny verify dfyconfig.toml` checks the whole project.

## The parts

**HTTP/2 connection** (`smallserver/http2.py`). `FrameBudget.dfy` is the wire splitter: the chunk loop is
proved equal to an automaton on single bytes, and that automaton to the rules of sections 3.4, 4.1 and 6.10
of RFC 9113 on whole frames, in both directions. `H2State.dfy` says what every operation of `H2Protocol`
makes of the connection; `H2Protocol.dfy` is the class with its fields updated in place and its loops,
every method equal to the function of the same name. The engine is arbitrary: a state and one function for
each call, any of which may refuse. `Lawful` names the only assumptions made of it (stream ids are new and
increasing, a stream ends once and carries no DATA afterwards) and `Orderly` those the progress results need
(draining empties the engine, accepted DATA yields output, a used-up window stays known and used up while
other streams send). The connection keeps a log of what happened; the invariant (`H2Safety.dfy`) ties the tables,
both counters and the log together, and `H2Runs.dfy` states the safety theorems over every interleaving of received bytes, responses,
failures, flushes and closes, also of handlers that outlive an exception. `H2Wire.dfy` says what the engine is
given over such runs. Against an engine that remembers its calls, `H2Calls.dfy` and `H2Output.dfy` prove that the
log is what the engine was asked and that every byte it hands over leaves exactly once; `H2Recording.dfy` carries
that over to every engine. The other direction, that nothing is left out, is `H2Complete.dfy` (the invariant),
`H2Drops.dfy` (when exactly a stream is dropped, and with which code) and `H2Service.dfy` (completed requests are
handed out, accepted responses are carried out). `H2Order.dfy` is about order, `H2Turns.dfy` about the turns of a
flush, `H2Progress.dfy` about the writer's loop, `H2Batching.dfy` about the reader's batches. A handler is assumed to
answer at most once.

**Server ownership and shutdown** (`smallserver/server.py`, the accept loop and startup of
`smallserver/app.py`, `smallserver/errors.py`, `smallserver/_transport.py`). The kernel is a tape of answers
that decides which close, cancel, notify or signal raises, and a function decides whether a cancellation runs
the `finally` block of its task before it returns; tasks and streams are numbers, and one task may be the running
one. The methods are therefore re-entrant as in the source: a
cancelled connection cancels its children and calls `ConnectionFinished`, the cancelled close watcher runs a
pass inside the pass. `Answers.dfy` is the tape, `ServerState.dfy` the invariant, `ServerSteps.dfy` the state
changes, `ServerTries.dfy` the count of cancellation tries, `ServerPasses.dfy` what a pass leaves, `Server.dfy` the
class, `ServerRuns.dfy` all runs.
`Cleanup.dfy`, `Transport.dfy` and `Startup.dfy` cover acquisition, rollback and the one invocation slot,
down to which calls were made in which order, how many failing ones lead to which outcome, and that what the
kernel has open after a startup, and in every state a run reaches from there, is exactly what the handle or the error
holds.

**WebSocket** (`smallserver/websocket.py`). `FrameGuard.dfy` is proved like the HTTP/2 splitter, against
sections 5.2 and 5.5 of RFC 6455. `Inbox.dfy` is reassembly and the inbox against section 5.4, and the answers to
control frames against sections 5.5.1 to 5.5.3, stated on whole histories; UTF-8 is a pair of functions with two laws.
`Outbox.dfy` is the command queue and the writer.

**HTTP/1.1 and routing** (`smallserver/server.py`, `smallserver/http.py`, `smallserver/routing.py`).
`HttpParser.dfy` proves the incremental parser equal to a function of the bytes fed, and that function stable
under more bytes. `HttpGrammar.dfy` proves that it accepts exactly the requests written as the grammar says and hands
out what was written; `HttpSyntax.dfy` says the same down to single characters. `Http.dfy` proves the printed response
unambiguous. `Router.dfy` proves the lookup with its index and cache equal to a simple rule; compiling and matching
are oracles.

## What turned out otherwise

- `finished` can be taken back. A finished server recomputes the flag at the end of every connection task,
  and a task cancellation that failed in the meantime makes it false again, after the callback has fired and
  the slot is free (`smallserver/server.py:626-637`). `ConnectionFinished` gives the exact condition,
  `FinishedIsTakenBack` a run, and `Run` what holds regardless: the callback fires at most once, and from
  then on everything but a pending cancellation is gone for good.
- A pass does not always try to cancel each task at most once. Its loops do (`FinishClose`). But there are two
  kinds of exception. The owner's pass cancels a running HTTP/2 connection (`smallserver/server.py:466`), whose
  `finally` block cancels its handlers (`smallserver/app.py:966-967`) without taking them off `_owned_tasks` or
  telling the pass, which then tries them again (`smallserver/server.py:496-504`). And every pass first asks the
  live WebSockets to shut down (`smallserver/server.py:420-423`), which calls off their handlers
  (`smallserver/websocket.py:629-642`); the owner's pass then tries them once more, in the `finally` block of
  their connection (`smallserver/websocket.py:804-813`) or in its own last loop. `PassTriesHandlersTwice` proves
  both, the first for handlers that have not started, of every connection whose cancellation takes effect at
  once, the second for every live WebSocket not asked before, whatever the kernel answers;
  `OnePassTriesAHandlerTwice` and `OwnerTriesAWebSocketTwice` are runs in which no call fails. While no call
  fails, and HTTP/2 handlers that have started are stopped at once, these are the only ones: from every state in
  which no cancellation is pending and running connections with children are in the table, the owner's pass
  tries exactly them twice and everything else at most once (`PassTriesTwiceExactlyOnEveryRun`,
  `PassTriesOnce`); a pass on the scheduler's side tries exactly the WebSocket handlers, once
  (`SchedulersPassTriesExactly`, `SchedulerTriesAWebSocketOnce`). Failing calls or not, while no live task is a
  connection or the close watcher, each task is tried at most once, those WebSocket handlers at most twice.
- When the WebSocket frame guard rejects a stream, what it has forwarded depends on the chunking: the frames
  gathered in the failing call are lost (`RejectionLosesItsOwnCall`). The verdict does not. All cuts forward
  the same bytes if and only if the stream passes or the first header it completes is the one rejected
  (`CutsAgreeExactly`, `NothingForwardedExactly`).
- A WebSocket command whose writer is cancelled in the middle of a frame is marked done without an error
  (`smallserver/websocket.py:870-888`), so its waiter cannot tell (`WriterCancelledInAFrame`). A command done
  without an error is whole on the wire if and only if it is not that one (`AcknowledgedMeansWritten`).
- A close that finds more held back than its limits allow returns nothing (`smallserver/http2.py:695-701`): that
  output, the GOAWAY included, never reaches the client. It is the only way a byte of the engine is lost in a run
  without an exception (`EveryByteLeavesOnce`).
- Without trailing-data mode the HTTP/1.1 parser can take an acceptance back (`StrictDecisionStands`).
- Both filters of `receive_data` never remove a request on a lawful engine: dropping a stream already has.

## Model

| member | source | states |
|---|---|---|
| `FrameBudgetSplitter.FrameBudget.Feed` | smallserver/http2.py:113-147 | the chunk loop accepts exactly what the one-byte-at-a-time automaton accepts and ends in its state; every field at rest is coherent |
| `FrameBudgetSplitter.FrameBudget.FeedPreface` | smallserver/http2.py:116-128 | octets of the connection preface: refused at the first octet that differs, ready once complete |
| `FrameBudgetSplitter.FrameBudget.FeedHeader` | smallserver/http2.py:130-140 | octets of a frame header; the ninth one starts the frame and finishes an empty one |
| `FrameBudgetSplitter.FrameBudget.FeedPayload` | smallserver/http2.py:141-147 | octets of payload; the last one finishes the frame |
| `FrameBudgetSplitter.FrameBudget.StartFrame` | smallserver/http2.py:149-167 | length, interleaving, continuation stream and compressed-header budget, refused in the source's cases only |
| `FrameBudgetSplitter.FrameBudget.FinishFrame` | smallserver/http2.py:169-176 | the whole frame becomes ready and an ended header block is closed |
| `FrameBudgetSplitter.FrameBudget.Take` | smallserver/http2.py:178-181 | the oldest chunks leave in order and nothing else changes |
| `FrameBudgetSplitter.ChunkingIsInvisible` | smallserver/http2.py:113-147 | feeding a then b is feeding a + b, in acceptance and in every field |
| `FrameBudgetSplitter.AnyChunking` | smallserver/http2.py:113-147 | any list of chunks is as good as their concatenation |
| `FrameBudgetSplitter.Conserved` | smallserver/http2.py:113-181 | conservation for feeds and takes in any order: the chunks taken, the chunks ready and the partial buffers are all the bytes fed octet for octet, and the chunks are the preface and the whole frames of a legal stream (sections 3.4, 4.1, 6.10 of RFC 9113) |
| `FrameBudgetSplitter.TakingIsInvisible` | smallserver/http2.py:113-181 | feeds and takes in any order leave what one feed of all the bytes leaves, once the taken chunks are put back |
| `FrameBudgetSplitter.Accepted` | smallserver/http2.py:113-147 | soundness of one feed: what is accepted is a legal stream, split as the rules on whole frames say |
| `FrameBudgetSplitter.LegalIsAccepted` | smallserver/http2.py:113-176 | completeness: every legal stream is accepted and split exactly into its frames |
| `FrameBudgetSplitter.AcceptsExactlyLegalStreams` | smallserver/http2.py:113-167 | one feed is accepted if and only if the bytes are a prefix of a legal stream |
| `FrameBudgetSplitter.UseAcceptsExactlyLegalStreams` | smallserver/http2.py:113-181 | the same for feeds and takes in any order |
| `FrameBudgetSplitter.PartialBuffersAreBounded` | smallserver/http2.py:99-181 | whatever was fed and taken, what is held back is less than a preface or one largest frame, and the open block is within budget |
| `FrameBudgetSplitter.BlockHistory` | smallserver/http2.py:157-167 | an open header block starts at a HEADERS frame and its size is the bytes it carried |
| `FrameBudgetSplitter.ContinuationBelongsToItsBlock` | smallserver/http2.py:157-175 | section 6.10 of RFC 9113: a CONTINUATION continues the block of its own stream, uninterrupted and within budget |
| `H2ProtocolClass.H2Protocol.constructor` | smallserver/http2.py:295-307 | a new connection: every table empty, both counters zero |
| `H2ProtocolClass.H2Protocol.ReleaseInbound` | smallserver/http2.py:664-667 | releasing a request body gives exactly its bytes back |
| `H2ProtocolClass.H2Protocol.DropStream` | smallserver/http2.py:647-662 | the stream leaves every table; its unsent and queued response bytes are given back |
| `H2ProtocolClass.H2Protocol.ResetStream` | smallserver/http2.py:669-674 | the stream is dropped whether or not the engine accepts the reset |
| `H2ProtocolClass.H2Protocol.RequestReceived` | smallserver/http2.py:402-416 | refused at the concurrency limit, reset if its headers are refused, otherwise active with an empty body |
| `H2ProtocolClass.H2Protocol.DataReceived` | smallserver/http2.py:496-517 | acknowledged first; a stream over a limit or over its declared length is reset, otherwise its body and the counter grow by the same bytes |
| `H2ProtocolClass.H2Protocol.StreamEnded` | smallserver/http2.py:519-540 | a body shorter than declared is reset; otherwise the request is ready with the body received |
| `H2ProtocolClass.H2Protocol.CaptureControlOutput` | smallserver/http2.py:379-388 | drained output is kept within both output budgets or the call raises |
| `H2ProtocolClass.H2Protocol.HandleEvent` | smallserver/http2.py:342-362 | what each engine event does |
| `H2ProtocolClass.H2Protocol.ReadChunk` | smallserver/http2.py:340-363 | one wire chunk: its events in order, then the capture |
| `H2ProtocolClass.H2Protocol.ReceiveData` | smallserver/http2.py:337-374 | at most one batch of chunks; requests are handed out only when no chunk is left, without cancelled or inactive ones |
| `H2ProtocolClass.H2Protocol.TakeCancelled` | smallserver/http2.py:397-400 | each cancellation is handed out once, in order |
| `H2ProtocolClass.H2Protocol.QueueResponse` | smallserver/http2.py:542-560 | refused, reset or queued; the counter grows by the body exactly when it is queued |
| `H2ProtocolClass.H2Protocol.StartResponse` | smallserver/http2.py:616-645 | oversized headers reset the stream, a refusing engine drops it, and the counter gives the body back in both cases |
| `H2ProtocolClass.H2Protocol.SendHead` | smallserver/http2.py:634-645 | headers refused or sent; a body becomes an outbound stream, an empty one ends the stream |
| `H2ProtocolClass.H2Protocol.RunCommands` | smallserver/http2.py:564-571 | the swapped-out commands run in order, each followed by the capture |
| `H2ProtocolClass.H2Protocol.FlushStream` | smallserver/http2.py:576-610 | one turn of the stream loop: finished, unknown, blocked and sending streams |
| `H2ProtocolClass.H2Protocol.SendChunk` | smallserver/http2.py:594-610 | one chunk goes to the engine, the offset and the counter move by its length, the wire-output check follows |
| `H2ProtocolClass.H2Protocol.ChunkWent` | smallserver/http2.py:603-610 | after an accepted chunk: offset, counter, output check, end of the stream |
| `H2ProtocolClass.H2Protocol.FlushTable` | smallserver/http2.py:573-614 | control output first, each stream once, then what the engine still has |
| `H2ProtocolClass.H2Protocol.Flush` | smallserver/http2.py:562-614 | commands, then control output, then every stream of the snapshot once |
| `H2ProtocolClass.H2Protocol.SendGoaway` | smallserver/http2.py:677-685 | GOAWAY goes out once, with the highest dispatched id |
| `H2ProtocolClass.H2Protocol.Close` | smallserver/http2.py:676-702 | everything is cleared and both counters are zero; the last output is returned unless it is over a limit |
| `H2Safety.HandleEventInv` | smallserver/http2.py:342-362 | every event a lawful engine may emit keeps the whole connection invariant, handled or raising |
| `H2Safety.DropInv` | smallserver/http2.py:647-662 | dropping a stream keeps it, even in the middle of an operation on that stream |
| `H2Operations.ReceiveDataInv` | smallserver/http2.py:337-374 | `receive_data` keeps it and adds what it returns to the requests handed out |
| `H2Operations.QueueResponseInv` | smallserver/http2.py:542-560 | `queue_response` keeps it for a handler that answers once |
| `H2Operations.AbandonInv` | smallserver/app.py:1017-1023 | a handler that ends without answering leaves it intact |
| `H2Operations.RunCommandsInv` | smallserver/http2.py:563-571 | the loop keeps it with the unprocessed commands counted, although they are no longer in the state |
| `H2Sending.FlushInv` | smallserver/http2.py:562-614 | `flush` keeps it; when it raises, the history `close` needs is intact |
| `H2Sending.CloseInv` | smallserver/http2.py:676-702 | `close` restores it from any state an operation can leave |
| `H2Runs.CountersExactAndBounded` | smallserver/http2.py:379-416 | over every run: pending bytes are the unsent bodies plus the queued ones, buffered bytes are the inbound bodies, all budgets and the stream limit hold, and the tables agree |
| `H2Runs.CloseAfterException` | smallserver/http2.py:686-694 | once an exception has ended a run, and whatever handlers answer or drop since, a close makes both counters exact and zero and every table empty; no later step changes that, a late answer or drop included, and the history of every answered stream stays legal |
| `H2Runs.DataIsAPrefixOfTheBody` | smallserver/http2.py:576-645 | sections 8.1 and 6.9.1 of RFC 9113 over every run: HEADERS first, once and never after a drop, with END_STREAM exactly for an empty body; DATA is a gapless prefix of the body in chunks as large as window and frame size allow, END_STREAM exactly at its end, nothing after it or after a drop |
| `H2Runs.RequestsAreGenuine` | smallserver/http2.py:348-540 | over every run: a request handed out was opened by its client with that very head and ended, has exactly the DATA received, as long as the head declared, and is handed out once |
| `H2Runs.HandedOutAlive` | smallserver/http2.py:366-374 | what a call hands out is active then: never reset, dropped or answered |
| `H2Runs.GoawayCovers` | smallserver/http2.py:676-685 | section 6.8 of RFC 9113: the last-stream-id of a GOAWAY is at least every id handed out |
| `H2Output.EveryByteLeavesOnce` | smallserver/http2.py:562-702 | conservation over every run without an exception: the bytes returned by flushes and closes, joined, and then the control output held back are exactly the bytes the engine has handed over, in order, without gap or repeat, if and only if no close was over a limit with what it would return; such a close is the one loss |
| `H2Output.TheLogIsWhatTheEngineSaw` | smallserver/http2.py:337-702 | over every run, exceptions included: the log names the engine calls that went through, one by one with their arguments; the events handled are those reported, in order, up to the one that raised; cancellations are handed out once, in the order of the peer's resets; both closed flags say what has happened |
| `H2Output.GoawayGoesOutOnce` | smallserver/http2.py:677-685 | the first close of a run, and no other, asks for a GOAWAY, with its own code and the highest dispatched id |
| `H2Output.ReceiveRaisesExactly` | smallserver/http2.py:337-388 | on an engine that refuses nothing, `receive_data` raises if and only if the bytes received are not the start of a legal stream or more was handed over and not yet returned than the limits allow |
| `H2Output.FlushRaisesOnlyOverLimits` | smallserver/http2.py:562-614 | `flush` raises only when more is owed than the limits allow; when it does not, what it returns and what is pending are within the limit |
| `H2Recording.OutputOnEveryEngine` | smallserver/http2.py:337-702 | the same for every engine, by a simulation with one that remembers its calls |
| `H2Service.RequestsAreHandedOut` | smallserver/http2.py:337-374 | completeness over every run without an exception or a close, once no chunk is left: a request its client opened with that head and ended, and whose stream was not dropped, was handed out with exactly the DATA received |
| `H2Service.RequestsAreHeld` | smallserver/http2.py:402-540 | until it is ended such a request is held with its head and the DATA so far, and not handed out |
| `H2Drops.EventDropsExactly` | smallserver/http2.py:342-540 | when a stream is dropped on the way, said from the event, the log and the limits alone: too many streams, an unreadable head, a body over a limit or of another length than declared, trailers, a reset by the peer; with the code the peer is told, and nothing else is dropped or reset |
| `H2Service.StreamLimitCountsOpenStreams` | smallserver/http2.py:402-416 | the streams that count towards the limit are those the client has opened that were neither dropped nor answered in full |
| `H2Service.LastIsACompletedRequest` | smallserver/http2.py:533-540 | what a GOAWAY names is 0 or a request its client has completed |
| `H2Service.ResponsesAreAcceptedExactly` | smallserver/http2.py:542-560 | a response is accepted if and only if its stream was not dropped and there is room for its body, beside all that is held back, queued and unsent, and for a command; a refused one costs a live stream its life |
| `H2Service.ResponsesAreCarriedOut` | smallserver/http2.py:562-645 | over such runs an accepted response whose stream was not dropped is queued with nothing sent, on the outbound table with exactly its first bytes sent, or complete |
| `H2Service.AcceptedResponsesAreKept` | smallserver/http2.py:562-662 | on an engine that takes what it is given an accepted response is dropped only if its client has reset the stream or sent trailers |
| `H2Drops.CommandsCarry` | smallserver/http2.py:616-645 | what a queued command does, and only to its stream: a refused response is reset as too much, too large a header list as the server's fault, one the engine does not take is dropped, any other sends its HEADERS |
| `H2Order.RequestsKeepTheirOrder` | smallserver/http2.py:337-540 | over every run of any engine: the requests handed out, then those ready, are the ended ones in the order of their ends, with some left out |
| `H2Order.ResponsesKeepTheirOrder` | smallserver/http2.py:542-645 | and the responses whose HEADERS went out, then those queued, are the accepted ones in the order of their acceptance, with some left out |
| `H2Turns.EveryStreamHasItsTurn` | smallserver/http2.py:573-614 | fairness: from every connection a run can reach, each stream still on the table after a flush has sent DATA in that very flush or its window is used up |
| `H2Turns.EveryTurnIsWithinLimits` | smallserver/http2.py:573-614 | after every turn of a flush, not only the last, what was gathered and what is pending are together within the limit |
| `H2Batching.BatchingIsInvisible` | smallserver/app.py:919-953 | for every batch size the reader ends with the same state, cancellations and requests in the same order as handling all frames at once |
| `H2Batching.BatchingIsInvisibleOnEveryRun` | smallserver/http2.py:337-374 | the same for every connection a run can reach |
| `H2Wire.EngineSeesLegalFrames` | smallserver/http2.py:337-347 | over every run and any engine: the chunks given to the engine are the preface and whole legal frames of the received bytes in order; without an exception they and what is held back are all the bytes received |
| `H2Progress.FlushProgress` | smallserver/http2.py:562-614 | any flush, the first after a wake-up included: no command stays queued, and after one that returns no bytes the engine knows every unfinished stream and its window is used up; from a settled state one that returns bytes strictly reduces the pending ones |
| `H2Progress.FlushProgressesOnEveryRun` | smallserver/app.py:1042-1046 | the same from every connection a run can reach, for a first flush and for the flush after it |
| `H2Progress.WriterLoopEnds` | smallserver/app.py:1042-1046 | the writer's flush loop ends |
| `H2Progress.WriterLoopEndsOnEveryRun` | smallserver/app.py:1042-1046 | the same for every connection a run can reach |
| `ServerOwnership.ServerHandle.CloseOrRetain` | smallserver/server.py:528-545 | the stream is closed and forgotten, or retained with an error entry and shutdown requested |
| `ServerOwnership.ServerHandle.ForceConnectionClose` | smallserver/server.py:547-557 | the same for a connection still in the table; no capacity wakeup is lost |
| `ServerOwnership.ServerHandle.ConnectionCloseFailed` | smallserver/server.py:559-579 | a close failure requests shutdown, and somebody hears of it: the close watcher was notified, or a pass was begun, which starts only if none was attempted |
| `ServerOwnership.ServerHandle.ListenerFailed` | smallserver/server.py:388-402 | a fatal accept failure requests shutdown, and somebody hears of it, by the wakeup channel or by a pass |
| `ServerOwnership.ServerHandle.CancelOrRetain` | smallserver/server.py:593-606 | the task is cancelled or retained with an error entry, and the try is counted; a `finally` block it interrupts has tried all the children of its connection; any other cancellation has one of two known results |
| `ServerOwnership.ServerHandle.NotifyCapacityReleased` | smallserver/server.py:319-332 | a waiting listener is signalled when a slot became free, or the failure is fatal |
| `ServerOwnership.ServerHandle.ConnectionFinished` | smallserver/server.py:608-624 | the connection leaves the table, its stream is closed or retained, its task is no longer owned, no wakeup is lost; a finished server stays finished if and only if no cancellation is pending |
| `ServerOwnership.ServerHandle.UpdateFinished` | smallserver/server.py:626-644 | finished exactly when everything is gone; the callback fires the first time only |
| `ServerOwnership.ServerHandle.FinishClose` | smallserver/server.py:412-526 | one pass: terminates although re-entrant; it asks every live WebSocket to shut down and its loops then try no task twice; without a failing call, from every regular state, the owner's pass tries every task at most once, but at most twice the handlers of running connections that have not started and those of WebSockets not asked before, and with nothing pending any other pass tries exactly the latter, once; failing calls or not, the same bounds hold while no live task is a connection or the close watcher; of the connections it leaves only its own and those asked to close gracefully, and a live WebSocket stays; without a failing call nothing is retained; finished exactly when everything is gone |
| `ServerOwnership.ServerHandle.Sweep` | smallserver/server.py:448-505 | the body of a pass: earlier cancellations, connections and, for the owner, every task still owned is cancelled, retained or was tried |
| `ServerOwnership.ServerHandle.FinalizeUntilDone` | smallserver/server.py:412-526 | with n kernel failures to come and no live WebSocket state, at most n + 1 owner-thread passes finish |
| `ServerOwnership.ServerHandle.Close` | smallserver/server.py:344-364 | external close: it raises if and only if the server is not finished and there is no wakeup channel or the request cannot be told to anyone; it is never lost, and a failed notification can be retried |
| `ServerOwnership.ServerHandle.AskToClose` | smallserver/server.py:351-364 | once the request was told to somebody, a later `close` raises if and only if a pass has been attempted without finishing; before, exactly when telling fails |
| `ServerOwnership.ServerHandle.CloseFromTask` | smallserver/server.py:374-386 | scheduler-side close: raises if and only if the task is not the running one, and then changes nothing; otherwise the live WebSockets are asked to shut down and a pass follows, which without a failing call tries exactly their handlers, once, and leaves the server finished exactly when everything is gone |
| `ServerOwnership.ServerHandle.RequestShutdowns` | smallserver/server.py:420-423 | every live WebSocket has been asked to shut down, and on a regular server exactly the handlers of those not asked before are called off, each once; nothing else changes |
| `ServerOwnership.ServerHandle.BeginPass` | smallserver/server.py:416-423 | a pass begins with these requests |
| `ServerOwnership.ServerHandle.ListenerRuns` | smallserver/app.py:679-684 | the loop head: ends when closed, waits at the limit, accepts below it |
| `ServerOwnership.ServerHandle.AcceptFails` | smallserver/app.py:692-696 | an exception ends the loop, silently only on a closed server |
| `ServerOwnership.ServerHandle.AcceptedSetupFails` | smallserver/app.py:685-691 | a stream whose setup rollback failed is retained at once |
| `ServerOwnership.ServerHandle.Accepts` | smallserver/app.py:697-736 | an accepted stream becomes a connection, or is closed or retained |
| `ServerOwnership.ServerHandle.UndoRegistration` | smallserver/app.py:724-736 | a connection task that cannot be registered is cancelled or retained and its stream closed or retained |
| `ServerOwnership.ServerHandle.ListenerWakes` | smallserver/server.py:311-317 | the wait for capacity ends by its signal or by shutdown |
| `ServerOwnership.ServerHandle.ConnectionEnds` | smallserver/app.py:960-989 | the `finally` block of a connection: its WebSocket has been asked to shut down, every child it still has is tried, its stream is in no table of live ones any more; when the server had finished and the only child cannot be cancelled, finished is taken back (`WindTask` is its first half, where it awaits a last send) |
| `ServerOwnership.ServerHandle.ConnectionGivenUp` | smallserver/app.py:966-989 | the same once its WebSocket has been asked: the children are tried, the tables are left |
| `ServerRuns.WindTask` | smallserver/app.py:960-987 | a connection that awaits the send of its GOAWAY has tried every child and has none left; everything is kept, and the rest of its `finally` block is a later step |
| `ServerOwnership.ServerHandle.CancelChild` | smallserver/app.py:966-977 | a handler stays owned until it ends, a WebSocket task until it is cancelled, any other child goes at once |
| `ServerOwnership.ServerHandle.DisownChild` | smallserver/websocket.py:804-813 | a WebSocket task leaves the owned ones only if its cancellation went through |
| `ServerOwnership.ServerHandle.CallOff` | smallserver/websocket.py:581-598 | a best-effort cancellation: the running task is left alone, any other is tried, nothing is retained of a failure, and it changes nothing but that task's |
| `ServerOwnership.ServerHandle.RequestShutdown` | smallserver/websocket.py:629-643 | a WebSocket is asked once: its handler is called off the first time |
| `ServerOwnership.ServerHandle.RunFinalizer` | smallserver/app.py:741-747 | the `finally` block of the close watcher or of a connection task keeps everything |
| `ServerRuns.Perform` | smallserver/server.py:528-624 | every step keeps the invariant; finished is lost only with a pending or a failing cancellation |
| `ServerRuns.Run` | smallserver/server.py:528-624 | every reachable state: each open stream in exactly one table, limit, an error entry for all that is retained and for nothing that is done with, no lost wakeup, every fatal error heard by the close watcher or a pass, callback at most once and only after everything was released |
| `ServerRuns.PassTriesHandlersTwice` | smallserver/server.py:420-505 | when the owner finalizes, every handler that has not started, of every running connection whose cancellation takes effect at once, and the handler of every live WebSocket not asked to shut down before, is tried twice in the one pass, whatever the kernel answers |
| `ServerRuns.PassTriesTwiceExactly` | smallserver/server.py:420-505 | without a failing call, from every regular state, if handlers that have started are stopped at once, the owner's pass tries a task twice if and only if it is one of these, and every other task at most once |
| `ServerRuns.PassTriesTwiceExactlyOnEveryRun` | smallserver/server.py:420-505 | the same from every state a run can reach with nothing pending and running connections with children in the table |
| `ServerRuns.SchedulersPassTriesExactly` | smallserver/server.py:412-526 | a pass on the scheduler's side, in every state a run can reach with nothing pending and without a failing call, tries exactly the handlers of live WebSockets not asked to shut down before, each once |
| `ServerRuns.PassTriesOnce` | smallserver/server.py:448-505 | the ordinary shutdown: with nothing pending, no WebSocket to ask and no children of running connections, as in HTTP/1.1, whatever close watcher runs, a pass without a failing call tries every task at most once |
| `ServerRuns.OnePassTriesAHandlerTwice` | smallserver/server.py:448-505 | such a run for HTTP/2, from an accepted connection on, in which no kernel call fails |
| `ServerRuns.OwnerTriesAWebSocketTwice` | smallserver/websocket.py:629-642 | a run, from an accepted connection on, in which no call fails and the owner's pass tries a WebSocket's handler twice |
| `ServerRuns.SchedulerTriesAWebSocketOnce` | smallserver/websocket.py:629-642 | the same connection in a pass on the scheduler's side: its handler is tried once, its own task not at all |
| `ServerRuns.FinishedIsTakenBack` | smallserver/server.py:608-637 | a run, from an accepted connection on, in which `finished` becomes true and then false again |
| `ServerSteps.ClosedKept` | smallserver/server.py:535-538 | a successful close keeps every part of the invariant and costs no failure |
| `ServerSteps.RetainedKept` | smallserver/server.py:540-544 | a failed close moves the stream to the retained ones, within the limit |
| `ServerSteps.PopThen` | smallserver/server.py:616-622 | a stream between the two tables is lost by no failure |
| `ServerSteps.UpdatedKept` | smallserver/server.py:626-644 | recomputing `finished` keeps the invariant |
| `ServerState.OwnedCount` | smallserver/server.py:306-309 | the owned count is the number of distinct streams held |
| `CleanupTransactions.CleanupTransaction.Add` | smallserver/errors.py:30-44 | an action is never overwritten: a taken name gets the first free number |
| `CleanupTransactions.CleanupTransaction.FreeName` | smallserver/errors.py:37-41 | the search for a free name ends |
| `CleanupTransactions.CleanupTransaction.Retry` | smallserver/errors.py:46-56 | exactly the actions whose resource is still open stay owned, in order, each with its error; they are as many as calls failed |
| `CleanupTransactions.StillOpenDistinct` | smallserver/errors.py:46-56 | what stays owned keeps distinct names and resources |
| `Transport.SetUp` | smallserver/_transport.py:172-190 | the calls are made in order up to the first that raises; a failed setup closes the resource or hands over a transaction that owns exactly it |
| `Transport.OpenListener` | smallserver/_transport.py:163-191 | got if and only if resolve, open, reuse-address, bind, listen and non-blocking all went through, in that order; no failed bind leaks a socket; one failing call is rolled back, a second leaves the socket owed |
| `Transport.CreateWakeup` | smallserver/_transport.py:292-331 | got if and only if it was opened and validated; no failed wakeup channel leaks; owed exactly after two failing calls |
| `Transport.Accept` | smallserver/_transport.py:193-218 | got if and only if the stream was made non-blocking and its peer asked for; no failed accept setup leaks a stream; owed exactly after two failing calls |
| `Transport.SendAll` | smallserver/_transport.py:231-246 | the slices sent are the data in order from the start, and all of it exactly on a normal return |
| `Startup.SmallServer.BindAndSchedule` | smallserver/app.py:520-647 | every exit, with or without a wakeup channel and a route observer, has closed everything and freed the slot, or keeps the slot with exactly the open resources owned; it schedules the server if and only if no kernel call fails, and then every call of the startup was made in order and the handle holds exactly what the kernel has open, with the limit, the wakeup channel and the tasks asked for; it leaves everything clean if and only if one call fails, and owes something if and only if the cleanup fails as well |
| `Startup.SmallServer.Abandon` | smallserver/app.py:547-607 | a failure before the handle exists |
| `Startup.SmallServer.WithListener` | smallserver/app.py:547-647 | the same for the part of startup that owns a listener |
| `Startup.SmallServer.WithResources` | smallserver/app.py:566-647 | the same for the part that owns a listener and, if there is one, the wakeup channel |
| `Startup.SmallServer.Schedule` | smallserver/app.py:608-647 | the hand-over: what the kernel had open is exactly what the handle then holds, and it has the limit, the wakeup channel and exactly the tasks forked; a failing registration is followed by an owner's pass, which frees the slot if and only if no call of its own fails |
| `Startup.SmallServer.Furnish` | smallserver/app.py:608-640 | the handle with the slot and its tasks: it meets the kernel where startup has left it, and has begun nothing |
| `Startup.SmallServer.StartTasks` | smallserver/app.py:609-640 | the tasks are made one by one and forked together, the calls in order up to the first that raises |
| `Startup.SmallServer.GiveUp` | smallserver/app.py:641-646 | when the tasks cannot all be made and forked: clean if and only if no call of the abort fails |
| `Startup.Serve` | smallserver/app.py:608-647 | a scheduled server at work, whatever its tasks, its owner and the kernel do: what the kernel has open is what the handle holds, and the slot is free if and only if the callback has fired, with nothing open then |
| `Startup.ShutDown` | smallserver/server.py:366-372 | its owner shuts it down: after at most one pass more than kernel calls fail every resource the startup opened is closed and the slot is free |
| `Startup.SmallServer.AbortStartup` | smallserver/server.py:646-650 | that pass: the callback fires exactly if it finishes, and it finishes if and only if none of its kernel calls fails |
| `Startup.SmallServer.ReleaseInvocation` | smallserver/app.py:229-232 | only the current reservation is released |
| `Startup.SmallServer.RetryCleanup` | smallserver/errors.py:102-122 | the slot is freed by the retry that closes the last resource, once, and only if it is still this startup's; it completes if and only if no call fails |
| `Startup.RetryHandle` | smallserver/app.py:163-170 | the retry of a startup that had a handle: it completes if and only if no call fails, and the slot goes with the last resource |
| `Startup.OwnedAreOpen` | smallserver/errors.py:46-56 | after a retry the owned resources are exactly the open ones |
| `FrameGuards.FrameGuard.Feed` | smallserver/websocket.py:182-243 | the chunk loop gives the verdict and forwards the bytes of the one-byte-at-a-time automaton |
| `FrameGuards.FrameGuard.ReadHeader` | smallserver/websocket.py:195-214 | the octets of a header, whichever call they come in |
| `FrameGuards.AbsorbCoherent` | smallserver/websocket.py:176-180 | the pending header stays under 14 octets |
| `FrameGuards.ChunkingIsInvisible` | smallserver/websocket.py:182-243 | verdict and forwarded bytes do not depend on how the data are cut |
| `FrameGuards.AnyChunking` | smallserver/websocket.py:182-243 | any list of chunks is as good as their concatenation |
| `FrameGuards.CutsAgreeExactly` | smallserver/websocket.py:182-243 | every way to cut the data forwards the same bytes if and only if the data pass or none of their prefixes that pass forwards any |
| `FrameGuards.NothingForwardedExactly` | smallserver/websocket.py:195-242 | that a rejected stream forwards nothing means that the first header it completes is the one rejected |
| `FrameGuards.RejectionLosesItsOwnCall` | smallserver/websocket.py:941-943 | two cuts of one rejected stream that forward different bytes |
| `FrameGuards.Accepted` | smallserver/websocket.py:182-243 | soundness: what passes is a legal stream, and all but a partial header is forwarded |
| `FrameGuards.LegalPasses` | smallserver/websocket.py:182-243 | completeness: every legal stream passes |
| `FrameGuards.PassesExactlyLegalStreams` | smallserver/websocket.py:216-242 | sections 5.2 and 5.5 of RFC 6455: passes if and only if every header is masked, minimal, legal and within the limit |
| `FrameGuards.MinimalHeaderReadsBack` | smallserver/websocket.py:219-235 | the minimal encoding of any length in range is legal and decodes to it |
| `FrameGuards.LegalHeaderIsMinimal` | smallserver/websocket.py:221-232 | no other encoding of a length is accepted |
| `Inboxes.MessageIsItsFragments` | smallserver/websocket.py:946-975 | section 5.4 of RFC 6455: a message is exactly its fragments joined, whatever control frames come between |
| `Inboxes.WebSocketReader.DataFrame` | smallserver/websocket.py:948-975 | a fragment joins its message or raises in exactly the source's cases |
| `Inboxes.WebSocketReader.Deliver` | smallserver/websocket.py:611-621 | delivered within both inbox limits or refused, the size counter exact |
| `Inboxes.WebSocketReader.PingOrPong` | smallserver/websocket.py:976-980 | a Ping queues exactly one Pong of its payload, or raises exactly when there is no room; a Pong settles exactly the Ping it echoes |
| `Inboxes.WebSocketReader.PeerCloses` | smallserver/websocket.py:981-1006 | a Close queues exactly one Close unless one was sent, with its code and a fixed reason for 1002 and 1007; the first reason to disconnect stands |
| `Inboxes.WebSocketReader.HandleEvent` | smallserver/websocket.py:948-1006 | one event: its answer in the outbox and in the frames queued, the pending Ping, the disconnect; and which error it raises, from the limits alone |
| `Inboxes.WebSocketReader.Drain` | smallserver/websocket.py:946-1007 | sections 5.5.1 to 5.5.3 of RFC 6455 on whole histories: the outbox is the old one with one command for each handled Ping, of its payload's size and in order, and one for the first Close unless one was sent; the pending Ping is cleared exactly by a Pong that echoes it, the disconnect is the code and reason of the Close; all events up to a Close are handled, and on an exception, which the offending event calls for, no completed message is lost or skipped |
| `Inboxes.WebSocketReader.Receive` | smallserver/websocket.py:478-488 | the oldest message, also after the reader has raised; received and inbox together stay what they were, so the n-th message received is the n-th completed |
| `Outboxes.Outbox.Enqueue` | smallserver/websocket.py:544-553 | accepted exactly within both limits, at the end of the queue, the byte counter exact |
| `Outboxes.Outbox.Take` | smallserver/websocket.py:856-862 | the oldest command leaves the queue and becomes active or done; no other command is touched |
| `Outboxes.Outbox.SendSlice` | smallserver/websocket.py:863-869 | the next slice of the frame; the command is done with the last one; no other command is touched |
| `Outboxes.Outbox.SendRaises` | smallserver/websocket.py:872-888 | a failing send ends this command, and no other, with an error |
| `Outboxes.Outbox.CancelWriter` | smallserver/websocket.py:870-888 | a cancelled writer marks its command, and no other, done |
| `Outboxes.Outbox.FailOutbound` | smallserver/websocket.py:566-579 | nothing stays queued and every affected waiter gets the error |
| `Outboxes.MarkFailed` | smallserver/websocket.py:572-579 | exactly the gathered commands are marked |
| `Outboxes.AcknowledgedMeansWritten` | smallserver/websocket.py:856-888 | a command done without an error is on the wire whole and in one piece if and only if the writer was not cancelled in it |
| `Outboxes.WriterCancelledInAFrame` | smallserver/websocket.py:870-888 | a run in which half a frame is written and its command done without an error |
| `Outboxes.FirstInFirstOut` | smallserver/websocket.py:854-869 | commands and their bytes leave in the order they were queued |
| `Outboxes.FailedValid` | smallserver/websocket.py:566-579 | an abort keeps the queue, order and acknowledgement invariants |
| `RequestSyntax.ProperIsAccepted` | smallserver/server.py:51-130 | completeness, said without the parser: every request written with a token for its method, a target in origin form, proper fields with a Host and at most one content-length whose digits are the length of the body, within the limits, is accepted with that method, path, query, body, trailing data and those fields, their values without the blanks around them |
| `RequestSyntax.AcceptedIsProper` | smallserver/server.py:51-130 | soundness: everything accepted is such a request |
| `RequestSyntax.AcceptsExactlyProperRequests` | smallserver/server.py:51-130 | sections 3, 5 and 6 of RFC 9112: accepted if and only if written so |
| `RequestGrammar.OneSplit` | smallserver/server.py:73-74 | path and query are determined by the target: no other split is at its first question mark |
| `RequestGrammar.OnlyDigitsRaise` | smallserver/server.py:119-125 | nothing else leaves the parser but by a rejection |
| `RequestSyntax.NamesSpelled` | smallserver/server.py:108-128 | the three names the parser looks for, as they are spelled |
| `RequestSyntax.DeclaresGives` | smallserver/server.py:119-127 | a value that is the length of the body in decimal, with any zeros before it and blanks around it, gives that length |
| `RequestSyntax.BareIs` | smallserver/server.py:105-106 | what is left of a value is what stands between its blanks, and nothing else |
| `RequestGrammar.AcceptsExactlyWrittenRequests` | smallserver/server.py:51-130 | the same in the parser's own terms for characters |
| `RequestGrammar.PrefixNeedsMore` | smallserver/server.py:51-72 | as long as not all of a legal request has come in, the parser waits |
| `RequestGrammar.WaitsOnlyForARequest` | smallserver/server.py:51-72 | and it waits for nothing else: for the blank line within the limit, or for the rest of a body that legal fields announce |
| `RequestGrammar.StatusNamesTheLimit` | smallserver/server.py:51-130 | a rejection has status 400, 413 or 414; a larger limit on the target lifts the 414, larger limits on head, header count and body the 413, and none the 400 |
| `RequestGrammar.LimitsOnlyRefuse` | smallserver/server.py:51-130 | larger limits change no decision but a 413 or 414 |
| `RequestGrammar.LongDigitsRaise` | smallserver/server.py:119-125 | a request legal but for a content-length of more digits than `int` reads leaves by an exception that is no parse error |
| `RequestGrammar.DigitsMean` | smallserver/server.py:119-125 | digits stand for n if and only if they are n in decimal with any zeros before it |
| `RequestGrammar.StatusReadsBack` | smallserver/http.py:151-152 | the printed status is the response's, as three digits behind the version, and its reason the rest of the line |
| `RequestGrammar.HeadersReadBack` | smallserver/http.py:153-157 | a reader of the printed lines gets the response's own headers, all and in order, behind a Content-Length if and only if it has none |
| `HttpParser.HTTPRequestParser.Feed` | smallserver/server.py:51-84 | at every call the outcome is the one the bytes fed so far decide |
| `HttpParser.ParseHeadLoop` | smallserver/server.py:86-130 | the loop over the header lines finds what the recursive reading finds, with the source's statuses, and raises where a content-length has more digits than `int` reads |
| `HttpParser.DecisionStands` | smallserver/server.py:51-84 | in trailing-data mode a decision is not changed by bytes that follow |
| `HttpParser.AnyChunking` | smallserver/server.py:51-84 | any chunking gives the same request or the same error |
| `HttpParser.Conservation` | smallserver/server.py:62-82 | head, delimiter, body and trailing data are the bytes fed |
| `HttpParser.StrictMode` | smallserver/server.py:66-69 | without it the only difference is that bytes behind a request are an error |
| `HttpParser.StrictDecisionStands` | smallserver/server.py:66-69 | there an acceptance stands if and only if nothing follows; an exception always stands |
| `HttpParser.PrintedLinesScan` | smallserver/server.py:102-114 | the loop over the lines of a printed head finds its pairs in order, values trimmed |
| `HttpParser.PrintedLengthReadsBack` | smallserver/http.py:151-157 | the printed Content-Length reads back as the length of the body |
| `Http.ToHttp1` | smallserver/http.py:151-157 | the printed response |
| `Http.PrintedIsUnambiguous` | smallserver/http.py:151-157 | sections 2.1 and 6.3 of RFC 9112: the first blank line ends the head, its lines read back as the printed pairs, and exactly one Content-Length is the number of octets that follow |
| `Http.LineReadsBack` | smallserver/server.py:104-107 | a printed header line reads back as its pair up to outer spaces and tabs |
| `Http.PrintedPairsValid` | smallserver/http.py:34-50 | the printed pairs are valid headers with one content-length |
| `Http.DelimiterEndsTheLines` | smallserver/http.py:157 | no delimiter occurs before the last line ends |
| `Http.FindIsFirst` | smallserver/server.py:54 | the delimiter found is the first one |
| `Routing.Router.AddStatic` | smallserver/routing.py:101-107 | all methods are registered or none; other routes are untouched |
| `Routing.Router.AddRegex` | smallserver/routing.py:113-142 | a known pattern gains methods where it stands, a new one goes to the end, and a failure changes nothing; index and list agree |
| `Routing.Router.Resolve` | smallserver/routing.py:144-175 | the lookup with its cache follows the simple rule |
| `Routing.Router.Allowed` | smallserver/routing.py:168-175 | the methods of all routes that answer on the path |
| `Routing.AllowedExcludesTheMethod` | smallserver/routing.py:157-175 | the methods offered never include the one asked for |
| `Routing.RuleIsDeterministic` | smallserver/routing.py:144-175 | the rule has one answer |
| `Routing.Sorted` | smallserver/routing.py:175 | sorted, without repeats, and exactly the set |

## Left out

- ServerOwnership.ServerHandle.FinishClose: does not say in which order tables are walked; the source walks them in insertion order, the model in any order.
- ServerOwnership.ServerHandle.CancelOrRetain: what a `finally` block that is interrupted leaves in every field is not fixed, only what it keeps, tries and counts.
- ServerRuns.PassTriesTwiceExactly: supposes that no cancellation is pending from an earlier failure; the close watcher's own pass would try a pending one as well.
- ServerOwnership.ServerHandle.RequestShutdown: says nothing of the Close frame it queues, the handshake it fails or the tasks it signals; an interrupt of the process raised while it cancels is left out.
- Identity: a stream and a task keep their number for good; the source keys its tables by `id(...)`, which Python may give again to a later object.
- Inboxes.WebSocketReader.DataFrame: an undecodable text message is excluded by the laws on UTF-8, so the source's error for it does not occur.
- HttpParser.ParseHeadLoop: gives the status of a rejection but not its detail text.
- Startup.SmallServer.BindAndSchedule: starts after the checks of its arguments; making the route observer's channel is part of making the handle.
- In-place records: request bodies, response offsets and outbound commands are values in their tables; the source mutates objects that a snapshot shares with the table.
- The attributes of `ServerHandle`, of the WebSocket outbox and of the WebSocket reader are the components of one record each; the source keeps them as separate attributes.
- Decoding request headers and filtering response headers: whether a head is refused is part of the event, and the size of the header list is part of the response; header values are foreign data here.
- hyper-h2, wsproto, the regex engine, the scheduler and the kernel sockets: foreign code, modelled only by the assumptions named above; HPACK, the handshake digest and UTF-8 are not modelled.
- `H2Protocol.initiate` and the `_http2_connection_loop` around the reader: one budget check, and task bookkeeping covered by the server model.
- Which exception is reported: failures are recorded as present or absent, not by identity.
- Clocks: deadlines, watchdogs and match timeouts; the deadline task appears only through the aborts and closes it causes.
- The WebSocket handshake and Close-frame uniqueness: `close_sent` is not consulted on the reader's error paths, so the latter is not an invariant.
- Configuration checks, adapters, the events of the route observer channel, warnings, destructors, locks and threads: they would add only easy members; every operation is atomic.
- Pattern validation (`_compile`, `_named_group_names`): its specification is another engine's grammar; it is one yes-or-no answer here.
- H2Service.RequestsAreHandedOut: supposes a run without a close; after one nothing is handed out any more.
- H2Service.AcceptedResponsesAreKept: supposes an engine that takes what it is given; one that refuses HEADERS or DATA, or no longer knows a stream, makes the source drop it.
- H2Output.FlushRaisesOnlyOverLimits: does not give the moment within a flush at which the limit is passed; every turn that ends normally is within it (`EveryTurnIsWithinLimits`).
- Inboxes.WebSocketReader.Drain: the outbox holds the sizes of the frames it queues, `replies` their contents; serialising them is the engine's.
- RequestSyntax.ProperIsAccepted: obsolete line folding and any other leniency of the RFCs that the parser refuses are not proper requests here either.
