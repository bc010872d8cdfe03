# netfish: verified model of the reactor core

netfish is a reactor-style TCP library: one `EventLoop` per thread, an epoll poller, a timer
queue on a timerfd, buffered non-blocking connections, and a client and a server on top. This
project models the state machines at its core and proves what every run of them keeps.

Each component has two forms.

- A transition system over values: a `State`, a total `Step`, and `Run` over arbitrary event
  lists. Everything the program does not control (what `write` and `readv` return, what epoll
  reports, which address the allocator picks, when another thread takes its next step, what a
  user callback does) is a payload of an event, so a theorem about all runs is a theorem about
  all environments. A failed `assert` of the source, or a read of freed memory by the loop, sets
  `fault` (`Abort` for `Buffer`).
- A class with the fields of the C++ class. Its methods contain the source's loops and in-place
  updates and are proved equal to the transitions (`Abs() == T(old(Abs()))`); the public ones
  keep the invariant. An assertion of the source becomes either an `assert` in the method that
  Dafny discharges or a result of the method.

| files | component |
|---|---|
| `TimerEntries`, `TimerModel`, `TimerInvariant`, `TimerTheorems`, `TimerQueue`, `TimerIds` | timers with a heap of live and freed addresses, re-entrant callbacks, the timerfd |
| `LoopModel`, `EventLoop` | N producers, one loop thread, functor queue, eventfd |
| `BufferModel`, `Buffer` | cell array with two indices against a byte queue |
| `ConnectionModel`, `OutputSteps`, `HalfClose`, `TcpConnection` | output path and half-close, calls from other threads split into their steps |
| `Channel`, `PollerModel`, `EPoller` | dispatch order; channel index, map and kernel interest set |
| `ConnectorModel`, `Connector`, `ClientModel`, `TcpClient` | connect, retry, backoff, reconnect |
| `ServerModel`, `TcpServer`, `ThreadPool` | connection lifecycle across loops, round robin |

## Where the code does not do what it seems to promise

- `Buffer::ensureWritableBytes` leaves the prepend area out of its comparison (Buffer.h:106), so
  its own assertions fail on a band of at most eight lengths. `EnsureWritableBand`, `AppendExact`
  and `ReadFdExact` give the band exactly; on a fresh buffer it is 1025 to 1032 bytes.
- `Buffer::shrink` keeps the old indices (Buffer.h:132-138). `ShrinkExact` says exactly when they
  stay in range and exactly when the content survives.
- `doPendingFunctors` leaves `callingPendingFunctors_` true (EventLoop.cc:154). That costs extra
  wakeups and loses none. `LeftoverFlagWakes` shows that it even rescues a functor which the loop
  thread queues between two calls of `loop()`, where the flag reset to false would block.
- A half-close can overtake posted data. When `shutdown` runs on another thread, `handleWrite` can
  see `kDisconnecting` while functors of that thread still wait: `EarlyHalfClose` loses a byte that
  `send` accepted, `HalfCloseTwice` shuts the write side down twice. It can also overtake a `send`
  that has tested the state and not yet posted (`SendOvertaken`). `LosslessIff` says exactly when
  data is lost, `AnotherHalfCloseIff` when a further half-close follows, and `CallerCleanIff` and
  `CallerLosslessIff` what a thread that calls `shutdown` has to know to rule out both, or the loss
  alone; `LocalHalfClose` shows that neither
  can happen when all calls are made on the loop thread.
- `addTimer` reads the timer's number after it has posted the timer (TimerQueue.cc:99-103). On
  another thread the timer may have been run and deleted by then, so that it reads freed memory or
  returns the id of another timer (`AddTimerReadsTooLate`), whose cancellation then hits that other
  timer (`WrongIdCancelsAnother`). `ReadIdExact` says what the read finds. A caller on another
  thread can rely on the id exactly for a timer that repeats (`AddTimerSafeIff`); on the loop thread
  the read is always right (`LoopThreadReadsOwn`).
- `sendInLoop` does not look at the state, so a message posted before `handleClose` or
  `connectDestroyed` is still written or buffered afterwards (`WrittenAfterClose`), and can make a
  channel that has been removed register itself again (`WritingAfterDestroy`,
  `RemovedChannelReturns`). `CloseEndsOutputIff` says exactly when a close ends the output.
- One report with a hang-up, no input, something urgent to read and end of stream calls
  `handleClose` twice (Channel.cc:36-47). `ServerTheorems.ReportOutcome` proves that this, and no
  other report, trips the assertion of `removeConnectionInLoop`.
- `Connector::start` is safe only under a condition that `StartSafeIff` gives exactly. Outside it
  either `start` fails an assertion itself (`StartFaultsIff`), or a retry timer does so later: one
  that is pending (`EagerStartFails`), or one that `stop` cancelled from a callback of the same
  batch of timers (`StopStartInBatchFails`).
- A `TcpClient` whose connection has closed without a reconnect cannot connect again: the connector
  stays in `kConnected` and `connect` fails an assertion, for good (`ClosedForGood`).

## Model

| member | source | states |
|---|---|---|
| TimerModel.HowMuchTimeFromNow | TimerQueue.cc:28-39 | the timespec denotes the distance to `when`, at least 100us; it is never zero and its nanoseconds are below 10^9 |
| TimerModel.ResetTimerfd | TimerQueue.cc:53-64 | the kernel deadline after encoding and decoding is `when`, or 100us from now if that is later |
| TimerEntries.InsertKeepsSet | TimerQueue.cc:155-159 | inserting a new entry keeps the order, adds exactly that entry, and says what the first entry becomes |
| TimerEntries.EraseKeepsSet | TimerQueue.cc:131-132 | erasing a present entry keeps the order and removes exactly that entry |
| TimerEntries.SplitAtNow | TimerQueue.cc:196-199 | the lower bound of (now, highest address) separates the entries due at `now` from the rest |
| TimerInvariant.StepInv | TimerQueue.cc:94-239 | the invariant on heap, both sets, batch, timerfd and history survives every step, with user calls at any point of handleRead |
| TimerInvariant.RunInv | TimerQueue.cc:94-239 | so it survives every run |
| TimerTheorems.TimerOwnership | TimerQueue.cc:112-239 | in every reachable state each timer ever created is in exactly one of queued, indexed in both sets, in the batch, deleted; no assertion of the queue fails, and the queue itself reads, runs and deletes live timers only |
| TimerIds.TimerSafety | TimerQueue.cc:94-239 | the same with addTimer's own read included: a completed addTimer has read its own timer's number, unless that timer had been deleted by then |
| TimerIds.ReadIdExact | TimerQueue.cc:98-103 | the read at the end of addTimer returns the timer's own number if and only if the timer is not deleted yet; it reads freed memory if and only if it is deleted and its address is free; otherwise it gets the number of a live timer at the same address |
| TimerIds.AddTimerSafeIff | TimerQueue.cc:94-104 | at the call: as long as nobody cancels the new timer, the read finds its own number in every continuation if and only if the timer repeats |
| TimerIds.LoopThreadReadsOwn | TimerQueue.cc:94-104 | on the loop thread addTimer always reads its own timer's number, whatever other threads do meanwhile |
| TimerIds.DueTimerIsFreed | TimerQueue.cc:98-103 | every due one-shot timer whose addTimer has yet to read can be deleted, and its address freed, by one handler run |
| TimerIds.LateRead | TimerQueue.cc:101-103 | after that the read finds freed memory, or another timer's number if the address has been given out again |
| TimerIds.AddTimerReadsTooLate | TimerQueue.cc:98-103 | a run from the start for each of the two failures |
| TimerIds.WrongIdCancelsAnother | TimerQueue.cc:103-110 | cancelling the id returned in the second failure deletes somebody else's timer |
| TimerIds.WrongTimerCancelled | TimerQueue.cc:98-110 | a run from the start in which that happens |
| TimerTheorems.IndexesAgree | TimerQueue.cc:122-168 | `timers_` and `activeTimers_` hold the same timers, and every stored key is the timer's current expiration |
| TimerTheorems.TimerfdArmed | TimerQueue.cc:112-239 | between handler runs a non-empty queue has its timerfd fired and unread, or armed for no later than the earliest expiration or 100us after arming |
| TimerTheorems.EndArmsExactly | TimerQueue.cc:233-238 | the end of a handler arms the timerfd for exactly the earliest timer left, or 100us ahead if that is later, and leaves it alone if there is none with a valid expiration |
| TimerTheorems.AddArmsExactly | TimerQueue.cc:112-120 | adding a timer arms the timerfd for exactly that timer if it becomes the earliest, and leaves it alone otherwise |
| TimerTheorems.FdOtherwise | TimerQueue.cc:170-176 | a handler begins by reading the timerfd, which is then no longer ready; it becomes ready exactly when its deadline is reached; no cancel, callback or other step touches it |
| TimerTheorems.BatchIsWhatIsDue | TimerQueue.cc:192-211 | the batch is exactly what is due, in order of expiration, and exactly the rest stays |
| TimerTheorems.CancelIsFinal | TimerQueue.cc:122-141 | after cancelInLoop ran for an added timer, at any later time outside a handler it is deleted and not in the next batch, even if it repeats and cancelled itself |
| TimerTheorems.CancelledStillRuns | TimerQueue.cc:170-188 | a timer of the current batch whose callback has not been started is run in this round in every continuation, even after its id is cancelled |
| TimerTheorems.StaleIdIsHarmless | TimerQueue.cc:122-141 | cancelling an id changes neither the owner nor the fields of any timer with another number, nor suppresses it, even at a reused address |
| TimerTheorems.CancelIndexed | TimerQueue.cc:128-134 | cancelling an indexed timer deletes it, frees its address and removes exactly its entry |
| TimerTheorems.AddedAsAsked | TimerQueue.cc:94-120 | addTimer followed by addTimerInLoop indexes a timer with the requested fields under a number never used before and leaves every other entry |
| TimerTheorems.EndOfHandlerFate | TimerQueue.cc:215-231 | at the end of a handler a timer of the batch is indexed again if and only if it repeats and its own id was not cancelled meanwhile, then due one interval after `now`; otherwise it is deleted |
| TimerTheorems.FiringCounts | TimerQueue.cc:170-188 | two runs of one timer are in different batches, and only a repeating timer runs twice |
| TimerQueues.HandlerReachable | TimerQueue.cc:170-188 | a whole handler run with callbacks that add and cancel is a run of the transition system, so all of the above holds around it |
| TimerQueues.TimerQueue.Insert | TimerQueue.cc:144-168 | inserts into both sets without a failing assertion, and reports whether the earliest expiration changed |
| TimerQueues.TimerQueue.AddTimerInLoop | TimerQueue.cc:112-120 | performs the add transition and keeps the invariant |
| TimerQueues.TimerQueue.CancelInLoop | TimerQueue.cc:122-141 | performs the cancel transition and keeps the invariant |
| TimerQueues.TimerQueue.EraseExpired | TimerQueue.cc:204-208 | for distinct live timers that are all in `activeTimers_`, the loop removes exactly their pairs, each erase finding its entry |
| TimerQueues.TimerQueue.AddTimer | TimerQueue.cc:94-104 | a whole call on the loop thread returns the new timer's own id and leaves it indexed with the fields asked for |
| TimerQueues.TimerQueue.GetExpired | TimerQueue.cc:192-211 | splits `timers_` at `now` and drops the batch from `activeTimers_` without a failing assertion |
| TimerQueues.TimerQueue.Reset | TimerQueue.cc:215-239 | re-inserts or deletes the whole batch and arms the timerfd for exactly the earliest timer left; keeps the invariant |
| TimerQueues.TimerQueue.HandleRead | TimerQueue.cc:170-188 | begin, all callbacks with their re-entrant calls, end; keeps the invariant |
| LoopTheorems.NoLostWakeup | EventLoop.cc:70-155 | for every interleaving of any number of producers: in poll with a functor pending, the eventfd is readable or a producer is between its push and its write, unless the loop thread queued it outside loop() with the flag false; for either value the flag is left at |
| LoopTheorems.NoLostWakeupAsWritten | EventLoop.cc:107-155 | with the flag as written the exception shrinks to functors queued by the loop thread before its first loop() |
| LoopTheorems.LeftoverFlagWakes | EventLoop.cc:139-155 | a run in which the next poll wakes up for a pending functor if and only if the flag is left true |
| LoopTheorems.ReadableIff | EventLoop.cc:120-137 | in every run the eventfd is readable if and only if somebody has written to it since it was last read |
| LoopTheorems.WakeupIsRead | EventLoop.cc:77-85 | once poll reports the wakeup channel the eventfd is emptied before the functors of that pass are taken, and stays empty until somebody writes again |
| LoopTheorems.QuitIsLast | EventLoop.cc:70-96 | once quit_ is set the pass at work is the last: in every continuation no poll begins until loop() is called again |
| LoopTheorems.FunctorConservation | EventLoop.cc:107-155 | executed, rest of the batch, and pending functors are the queueing history in mutex order |
| LoopTheorems.ProducerOrder | EventLoop.cc:107-118 | the functors of one producer run in its program order |
| LoopTheorems.BatchIsClosed | EventLoop.cc:139-155 | a batch is what was queued before the swap; what is queued while it runs waits for the next one |
| EventLoops.EventLoop.Loop | EventLoop.cc:70-88 | each pass runs exactly what was pending when it began and what was queued before its swap, by any thread or channel callback, and leaves exactly what was queued while its functors ran; loop() ends after the pass in which quit is called, on whichever thread, and ignores an earlier quit |
| EventLoops.EventLoop.OnePass | EventLoop.cc:78-84 | moreover, a pass in which poll reports the wakeup channel leaves the eventfd empty unless something is queued or another thread quits after the read |
| EventLoops.EventLoop.DoPendingFunctors | EventLoop.cc:139-155 | runs exactly the functors pending at the swap, in order, leaves exactly what they queued, and that is announced |
| EventLoops.EventLoop.QueueInLoop | EventLoop.cc:107-118 | appends the functor; the eventfd is readable afterwards unless the loop thread queued it with the flag false |
| EventLoops.EventLoop.RunInLoop | EventLoop.cc:98-105 | runs at once on the loop thread and otherwise queues and wakes |
| EventLoops.EventLoop.Wakeup | EventLoop.cc:120-127 | the eventfd is readable afterwards, even when the counter is saturated |
| EventLoops.EventLoop.Quit | EventLoop.cc:90-96 | sets quit_ and wakes the loop when called on another thread |
| BufferModel.EnsureWritableBand | Buffer.h:103-120 | aborts if and only if max(W, W+P-8) < len <= W+P |
| BufferModel.AppendExact | Buffer.h:96-120 | aborts exactly on that band; otherwise the content is the old content followed by the new bytes |
| BufferModel.FreshBand | Buffer.h:26-34 | on a fresh buffer append aborts exactly for 1025 to 1032 bytes |
| BufferModel.ReadFdExact | Buffer.cc:15-35 | delivers the bytes read, in order, for every split; aborts exactly when max(0, reader-8) < n-W <= reader |
| BufferModel.AppendLayout | Buffer.h:96-120 | append leaves the cells as many as they were, with the content in place or moved to the front, or grows them to end exactly where the content ends; which, is decided by the lengths |
| BufferModel.ApplyAbortIff | Buffer.h:66-129 | for each operation exactly when it fails an assertion |
| BufferModel.PrependExact | Buffer.h:123-129 | aborts exactly when the prepend area is too small; otherwise the bytes come before the content |
| BufferModel.ShrinkExact | Buffer.h:132-138 | the indices stay in range if and only if reader <= 8 + reserve; then the content survives if and only if reader is 8 or all bytes are zero |
| BufferModel.ApplyCapacity | Buffer.h:103-120 | an operation keeps the capacity or leaves it at no more than twice the readable size |
| BufferModel.BufferRefinesQueue | Buffer.h:66-129 | over every non-aborting run from a fresh buffer the content equals a byte queue's, and the capacity is at most max(1032, twice the largest size ever held) |
| Buffers.Buffer.MoveDown | Buffer.h:111-113 | the overlapping in-place copy puts the old range at its new place and changes nothing else |
| Buffers.Buffer.EnsureWritableBytes | Buffer.h:103-120 | in place, equals the value model, including when it aborts |
| Buffers.Buffer.Append | Buffer.h:96-101 | content grows by exactly the bytes given, or the length is in the band |
| Buffers.Buffer.Retrieve | Buffer.h:66-70 | drops a prefix of the content, or fails when it is longer than the content |
| Buffers.Buffer.RetrieveAsString | Buffer.h:84-89 | returns the whole content and leaves none |
| Buffers.Buffer.Prepend | Buffer.h:123-129 | puts the bytes before the content |
| Buffers.Buffer.Shrink | Buffer.h:132-138 | replaces the cells and keeps both indices |
| Buffers.Buffer.ReadFd | Buffer.cc:15-35 | on success appends what readv delivered; on failure changes nothing and returns -1 |
| ConnectionTheorems.StreamConservation | TcpConnection.cc:126-191 | for any partial or failed writes: wire followed by unsent bytes are the messages given to sendInLoop, in order; those of other threads are taken in posting order |
| ConnectionTheorems.ThreadOrder | TcpConnection.cc:126-131 | the messages of one other thread enter the stream in the order of its send calls |
| ConnectionTheorems.WritingWhileUnsent | TcpConnection.cc:133-191 | until a close the channel waits for writability exactly while bytes are unsent |
| ConnectionTheorems.CompletionsWhenDrained | TcpConnection.cc:133-191 | each write-complete callback is queued when every byte taken is on the wire |
| OutputTheorems.WritableExact | TcpConnection.cc:163-191 | a writable event moves as many unsent bytes to the wire as the socket takes; exactly when it takes the unsent bytes from some to none it queues one write-complete callback, stops waiting for writability and, after shutdown, shuts the write side down |
| OutputTheorems.SendsExact | TcpConnection.cc:133-161 | sendInLoop writes directly exactly if nothing waits; one write-complete callback is queued exactly if the whole message was written so, and otherwise the rest is appended to the unsent bytes |
| OutputTheorems.HalfCloseIff | TcpConnection.cc:113-119 | the write side is shut down exactly when shutdownInLoop runs with the channel not writing, or when handleWrite sends the last unsent byte after shutdown |
| OutputTheorems.CallsPost | TcpConnection.cc:105-131 | an uninterrupted send or shutdown on another thread posts its functor exactly if the connection is connected, and does nothing otherwise |
| OutputTheorems.ReadingExact | TcpConnection.cc:48-96 | in every run input is watched exactly from connectEstablished to handleClose or connectDestroyed |
| ConnectionTheorems.HalfCloseWhenDrained | TcpConnection.cc:105-119 | before a close the write side is shut down only when every byte given to sendInLoop is on the wire |
| HalfCloseTheorems.WireFrozen | TcpConnection.cc:113-119 | after a half-close nothing reaches the wire in any continuation |
| HalfCloseTheorems.LosslessIff | TcpConnection.cc:105-191 | at the first half-close before a close event: everything send has accepted is on the wire in every continuation if no byte waits in a posted functor or in a send call past its test, and in no continuation otherwise |
| HalfCloseTheorems.SendOvertaken | TcpConnection.cc:105-131 | a byte of a call between its test and its posting is cut off with nothing posted, in every continuation |
| ConnectionTheorems.HalfCloseBound | TcpConnection.cc:105-119 | for any threads: at most one half-close per shutdown call, and one more only if handleWrite made the first |
| ConnectionTheorems.AnotherHalfCloseIff | TcpConnection.cc:113-119 | after a first half-close a step makes another if and only if it runs a posted shutdownInLoop while the channel is not writing |
| ConnectionTheorems.OneCallerHalfClose | TcpConnection.cc:105-191 | with all calls on one other thread: at most two, the first then by handleWrite; the one by the posted functor never leaves an accepted byte behind |
| HalfCloseTheorems.CallerCleanIff | TcpConnection.cc:105-111 | with all calls on one other thread: when shutdown is about to set the state, every continuation has at most one half-close and loses nothing by it if and only if no byte is unsent and none is posted |
| HalfCloseTheorems.CallerLosslessIff | TcpConnection.cc:105-111 | for lost data alone: before a close no continuation loses any if and only if at most one of the output buffer and the posted messages is non-empty at that moment |
| ConnectionTheorems.LocalHalfClose | TcpConnection.cc:105-191 | with all calls on the loop thread: at most one, and only when every accepted byte is on the wire |
| ConnectionTheorems.EarlyHalfClose | TcpConnection.cc:163-181 | a run in which an accepted byte is cut off |
| ConnectionTheorems.HalfCloseTwice | TcpConnection.cc:105-181 | a run with two half-closes |
| TcpConnections.TcpConnection.WriteFirst | TcpConnection.cc:136-153 | the direct write, and what it leaves for the buffer |
| TcpConnections.TcpConnection.SendInLoop | TcpConnection.cc:133-161 | performs the send transition over the in-place buffer, or the buffer aborts |
| TcpConnections.TcpConnection.SendHere | TcpConnection.cc:126-131 | on the loop thread: wire and unsent bytes together grow by exactly the message; keeps the invariant |
| TcpConnections.TcpConnection.RunFunctor | TcpConnection.cc:105-161 | runs the next posted functor; keeps the invariant |
| TcpConnections.TcpConnection.HandleWrite | TcpConnection.cc:163-191 | moves a prefix of the unsent bytes to the wire, so that both together stay the same; the last of them brings exactly one write-complete callback and, after shutdown, the half-close; keeps the invariant |
| TcpConnections.TcpConnection.ShutdownHere | TcpConnection.cc:105-119 | on the loop thread: shuts the write side down if and only if the channel is not writing, and before a close only when the wire is the whole stream; keeps the invariant |
| TcpConnections.TcpConnection.Send | TcpConnection.cc:126-131 | a whole send call of another thread is its two steps; keeps the invariant |
| TcpConnections.TcpConnection.Shutdown | TcpConnection.cc:105-111 | a whole shutdown call of another thread is its three steps; keeps the invariant |
| TcpConnections.TcpConnection.HandleRead | TcpConnection.cc:68-83 | delivers the old input followed by what arrived; end of stream closes; an error changes nothing |
| HalfCloseTheorems.CloseEndsOutputIff | TcpConnection.cc:57-96 | after handleClose or connectDestroyed, in every continuation in which nobody begins a send, the wire and the unsent bytes stay as they are and the channel does not write, if and only if no byte waits in a posted functor or in a send call past its test |
| HalfCloseTheorems.WrittenAfterClose | TcpConnection.cc:133-161 | a run in which a message posted before the close is written after it |
| HalfCloseTheorems.WritingAfterDestroy | TcpConnection.cc:155-160 | a run in which the channel of a destroyed connection waits for writability again |
| PollerTheorems.RemovedChannelReturns | EPoller.cc:68-114 | such an enabling after the removal registers the channel again |
| PollerTheorems.PollerAgreement | EPoller.cc:54-127 | as long as no assertion failed, index, map and kernel set agree as kNew, kAdded and kDeleted intend, and no epoll_ctl was refused |
| PollerTheorems.ModifyExact | Channel.h:48-52 | each operation turns the direction it names on or off and leaves the other, in the channel and in the kernel; a registered channel without interest leaves the kernel; no other channel or descriptor changes |
| PollerTheorems.FaultIff | EPoller.cc:68-114 | an operation fails an assertion if and only if it joins a descriptor that is taken, or removes a channel that is not in the poller or not disabled |
| PollerTheorems.CloseThenDestroy | EPoller.cc:68-114 | disableAll twice and removeChannel: out of the kernel, back in with an empty mask, out again, with no refused epoll_ctl |
| PollerTheorems.FillWorks | EPoller.cc:54-66 | the assertions hold for every list of reports from the kernel; only revents of reported channels change |
| PollerTheorems.FillFlags | EPoller.cc:54-66 | a reported channel carries the flags of its last report |
| EPollers.EPoller.UpdateChannel | EPoller.cc:68-96 | given a new channel with a free descriptor, or one that the map holds, the assertions hold and the map holds it afterwards |
| EPollers.EPoller.Modify | Channel.h:48-52 | the enable and disable operations, each followed by update: the direction named is on or off, the other as before, the kernel holds the same; keeps agreement |
| EPollers.EPoller.RemoveChannel | EPoller.cc:98-114 | performs the removal; keeps agreement |
| EPollers.EPoller.FillActiveChannels | EPoller.cc:54-66 | the loop lists exactly the reported channels in order and keeps agreement |
| ConnectorTheorems.OneAttempt | Connector.cc:33-182 | in every disciplined run no assertion fails, at most one attempt is outstanding (a registered socket, or a timer that can fire, cancelled in its own batch or not), and exactly the socket being connected is still open: all others were closed or handed over once |
| ConnectorTheorems.ReportOutcome | Connector.cc:97-135 | what one report does to the socket: handed over, closed and retried, closed, or left alone, with the exact condition for each, error and write callback together included |
| ConnectorTheorems.AttemptBegins | Connector.cc:33-95 | start, restart, and a retry timer while the connection is wanted make one socket, which is being connected, or closed with a timer set, or closed, as connect(2) says; a retry timer after stop makes none |
| ConnectorTheorems.Backoff | Connector.cc:137-161 | the i-th retry since construction or restart waits min(500 * 2^i, 30000) ms |
| ConnectorTheorems.NothingAfterStop | Connector.cc:97-167 | after stop no socket is handed over until start or restart, and settled sockets stay settled |
| ConnectorTheorems.StartFaultsIff | Connector.cc:33-95 | after a disciplined run start itself fails an assertion if and only if the connector is not disconnected, or the attempt proceeds before the old channel is dropped |
| ConnectorTheorems.StartSafeIff | Connector.cc:33-167 | after a disciplined run start leads to no failed assertion in any disciplined continuation if and only if the connector is disconnected and either the attempt fails at once, or no retry timer can still fire and, if the attempt gets under way, the old channel has been dropped |
| ConnectorTheorems.StartAlwaysSafeIff | Connector.cc:33-167 | over all outcomes of the system call: start is safe if and only if the connector is disconnected, no retry timer can fire and the old channel has been dropped |
| ConnectorTheorems.EagerStartFails | Connector.cc:33-46 | a start while a retry timer is pending makes two attempts, and the timer then fails an assertion |
| ConnectorTheorems.StopStartInBatchFails | Connector.cc:163-167 | stop and start from a callback of the retry timer's own batch: the cancelled timer still fires and fails an assertion |
| ConnectorTheorems.RetryKeeps | Connector.cc:137-152 | retry of the one open socket settles it and leaves at most one timer, with the next delay of the backoff |
| Connectors.Connector.Start | Connector.cc:33-37 | a safe start makes one socket and keeps the invariant |
| Connectors.Connector.Stop | Connector.cc:163-167 | no live retry timer is left; keeps the invariant |
| Connectors.Connector.TimerFires | Connector.cc:146-147 | a retry timer, late cancelled or not, leaves at most one new timer, and creates no socket once stopped; keeps the invariant |
| Connectors.Connector.HandleEvent | Connector.cc:84-135 | one report runs both callbacks in order, with the outcome above for the socket; keeps the invariant |
| Connectors.Connector.HandleWrite | Connector.cc:97-124 | disposes of the socket being connected, does nothing if there is none, and keeps the invariant |
| Connectors.Connector.HandleError | Connector.cc:126-135 | closes the socket, leaves a timer if and only if the connection is still wanted, and keeps the invariant |
| Connectors.Connector.Restart | Connector.cc:154-161 | begins one new attempt whose first retry waits the initial delay again, and keeps the invariant |
| ClientTheorems.OneConnection | TcpClient.cc:86-134 | if connect is called only where it is safe, the client owns at most one established connection, no assertion of client or connector fails, and every reconnect finds the connector ready for restart |
| ClientTheorems.ReportMakesConnection | TcpClient.cc:86-115 | a report makes a connection, owned and up, if and only if it is for writability without error, the socket has no error and is not connected to itself, and the connection is still wanted; otherwise nothing changes |
| ClientTheorems.CloseReconnects | TcpClient.cc:117-134 | a close gives the connection up for destruction and begins a new attempt if and only if retry is enabled and the client wants to connect |
| ClientTheorems.Wishes | TcpClient.cc:61-84 | in every run the client wants to connect if and only if of connect, disconnect and stop connect was the last, or none has been called |
| ClientTheorems.ConnectSafeIff | TcpClient.cc:61-67 | connect leads to no failed assertion in any continuation if and only if the connector can be started as in StartSafeIff |
| ClientTheorems.ConnectFaultsIff | TcpClient.cc:61-67 | connect itself fails an assertion if and only if the connector is not disconnected, or the attempt proceeds before the old channel is dropped |
| ClientTheorems.ClosedForGood | TcpClient.cc:117-134 | once a connection has closed without a reconnect, connect fails an assertion in every continuation, with no connection, no timer and all functors run |
| TcpClients.TcpClient.RemoveConnection | TcpClient.cc:117-134 | no connection is up afterwards, a new attempt is under way if and only if retry is wanted and it got going, and the invariant is kept |
| TcpClients.TcpClient.HandleConnector | TcpClient.cc:86-115 | a socket handed over by the connector becomes the one owned, established connection, under the same condition; keeps the invariant |
| ServerTheorems.ServerLifecycle | TcpServer.cc:48-94 | for any number of I/O loops and any interleaving no assertion on establish, erase or destroy fails, the map holds exactly the connections not yet erased, and each gets at most one up and one down callback, in that order |
| ServerTheorems.HomeLoop | TcpServer.cc:63-65 | connection k lives on I/O loop 1 + (k - 1) mod n, or on the base loop if there is no other |
| ServerTheorems.AcceptMakesOne | TcpServer.cc:48-74 | accepting makes one connection under the next number, in the map at once, live on the base loop and otherwise waiting to be established; no other changes |
| ServerTheorems.AlwaysCarriedOn | TcpServer.cc:48-94 | a connection between two stages has exactly one functor pending, once, in the loop that has to run it; otherwise it has none |
| ServerTheorems.DoubleCloseFaults | TcpConnection.cc:88-96 | two handleClose calls always end in a failed erase: at once on the base loop, otherwise when the base loop runs its functors |
| ServerTheorems.ReportOutcome | Channel.cc:30-52 | one report is nothing or one close event, unless it closes twice; and it leads to a failed assertion if and only if it closes twice |
| TcpServers.TcpServer.NewConnection | TcpServer.cc:48-74 | performs the accept transition; keeps the invariant |
| ServerTheorems.TaskAdvances | TcpServer.cc:79-94 | running a functor takes its connection from fresh to live, from closed to erased, or from erased to gone, and changes no other |
| ServerTheorems.CloseAdvances | TcpConnection.cc:88-96 | a close event takes a live connection to closed, or to erased on the base loop, and changes no other |
| ServerTheorems.NeverBack | TcpConnection.cc:48-66 | in every run a connection only moves forward: fresh, live, closed, erased, gone |
| TcpServers.TcpServer.RunTask | TcpServer.cc:84-94 | the next functor of any loop runs without a failed assertion; keeps the invariant |
| TcpServers.TcpServer.HandleClose | TcpConnection.cc:88-96 | performs the close transition; keeps the invariant |
| ThreadPools.RoundRobin | EventLoopThreadPool.cc:38-52 | after any number of calls each loop was picked once per full round and once more if the current round has passed it |
| ThreadPools.Fair | EventLoopThreadPool.cc:38-52 | so the counts of any two loops differ by at most one |
| ThreadPools.EventLoopThreadPool.GetNextLoop | EventLoopThreadPool.cc:38-52 | call k returns loop k mod n, or the base loop if there is none |
| ThreadPools.EventLoopThreadPool.Start | EventLoopThreadPool.cc:24-36 | collects the loops of all threads in order |

## Left out

- System calls and errno tables (SocketsOps.cc, Socket.cc, InetAddress.cc): their results are event payloads. Connector.cc:53-81 appears as its three classes of errno.
- Logging, Thread, MutexLock, Condition, Atomic: a critical section and an atomic increment are single steps.
- Seconds as floating point: intervals are whole microseconds with a separate repeat flag, as a positive interval below one microsecond repeats with a zero step.
- Integer widths: timestamps, sequence numbers, connection numbers and sizes are unbounded.
- The difference between CLOCK_MONOTONIC and gettimeofday: one clock, positive and never running backwards.
- Lifetimes through shared_ptr and raw `this` in bound functors: objects outlive their functors. A channel is destroyed only while it is out of the poller. Destructors are not modelled.
- addTimer: after a read of freed memory, which is undefined, the model goes on with the read recorded as stray; `LOG_TRACE` makes the same read once before (TimerQueue.cc:101-102).
- EventLoopThread's start handshake, and `looping_`: only the loop's own quit handling is modelled.
- Channel::handleEvent appears as the order of its callbacks; `eventHandling_` has no effect and is dropped.
- The growth of the poller's event list (EPoller.cc:43-45) and poll timeouts.
- Connector: start and stop run on the loop thread and the new-connection callback is set.
- ConnectorTheorems.OneAttempt: assumes `Disciplined` use (start only when idle with no timer that can fire, restart only after a hand-over, functors drained before a retry); StartSafeIff says what start does without it.
- TcpConnection: the write-complete callback is assumed to be set, and what user callbacks do is represented by the events that follow.
- ServerTheorems.ServerLifecycle: send and shutdown run on the connection's own loop, nothing re-enables a channel between handleClose and connectDestroyed, and no report closes twice (ReportOutcome says which would).
- TcpClient: disconnect only clears `connect_`; the half-close it asks for is the subject of ConnectionTheorems.
- Acceptor, Timestamp formatting, the test programs, the ping-pong programs and the scripts: I/O and drivers.
