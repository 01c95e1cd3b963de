# Verified model of a one-loop-per-thread TCP library

The library serves TCP connections with one event loop per thread: a base loop accepts
connections and hands each to an I/O loop, work crosses threads through functor queues and an
eventfd, and a background thread writes the log. This project models the protocols between its
threads and the stateful structures they rest on, and proves what the code's own assertions and
comments promise about them, in every interleaving.

Each concurrent component is a state machine in which one step is a stretch of code that holds
a mutex, one system call, or one callback; a failed `assert`, a null dereference or a call on a
destroyed object ends a run in `Abort` (`Machine.dfy`). A theorem about every interleaving is a
theorem about `Run` on every list of events. Code that updates an object in place is also
written as a class whose methods are proved against the functions the theorems are about.

| files | contents |
|---|---|
| `Lifecycle.dfy` | connections across the base loop and the I/O loops: `TcpServer`, `TcpConnection`, functor queues, channels |
| `LifecycleInv.dfy`, `LifecycleProof.dfy`, `LifecycleSteps.dfy` | the invariant of that machine, and its preservation by every step |
| `LifecycleTheorems.dfy` | what follows in every run |
| `LifecycleHandOver.dfy` | one whole hand-over, from the peer's close to the destruction |
| `LifecycleEnding.dfy` | a close from any state, whatever else is going on, to the connection's end |
| `LifecycleTraffic.dfy` | what goes over the socket: bytes sent, bytes through `outputBuffer_`, half-closes |
| `LifecycleShutdown.dfy` | a `shutdown` from any state to the half-close of the socket |
| `LifecycleCalls.dfy` | the effect of each user call, of the loop thread's steps and of `newConnection`; which loop gets which connection |
| `LifecycleAsserts.dfy` | when each assertion of the connection code fails |
| `LifecycleLimits.dfy` | `sendInLoop` and the kernel's hang-ups: where the code departs from its evident intent, and exactly when it does not |
| `LifecycleDrive.dfy` | driving loop threads, from any state, until nothing mentions a connection |
| `LifecycleRaces.dfy` | `forceClose` and `shutdown` overtaken by a close between their test and their action |
| `LifecycleBeside.dfy`, `LifecycleLateSend.dfy` | the same for `send`: steps beside a late functor, and what it finds |
| `TcpConnection.dfy` | the classes `TcpConnection` and `TcpServer` |
| `EventLoop.dfy` | the pending-functor queue and the wake-up protocol |
| `AsyncLogging.dfy`, `LogRounds.dfy` | the double-buffered log writer and `FixedBuffer`; its backlog and its rounds |
| `ThreadPool.dfy` | the bounded task queue |
| `Polling.dfy` | channels, the epoll index and the kernel's interest set, dispatch |
| `Buffer.dfy`, `Endian.dfy` | the sliding-window byte buffer and its integers |
| `Names.dfy` | connection names and the round robin over loops |
| `Machine.dfy`, `Seqs.dfy` | runs, and sequence lemmas |

`dafny verify dfyconfig.toml` checks everything.

## Findings

Properties the code does not have, each with an exact condition and runs that show it:

- `sendInLoop` extends the outgoing stream by its message only if the message is empty, or the
  connection is idle and the first `write` takes nothing (`LifecycleLimits.SendConserves`).
- `forceClose`, `shutdown` and `send` test the state and act on it in two steps. The life-cycle
  theorems take the two as one. When the connection is closed in between, the rest of `forceClose`
  leads to a second removal and an abort (`LifecycleRaces.ForceNeedsItsCheck`); the rest of
  `shutdown` leaves a connection that no continuation lets die Disconnected
  (`LifecycleRaces.ShutdownNeedsItsCheck`, `LateShutdownNeverRecovers`); and a functor queued by
  `send` finds its connection destroyed, unless the connection is still in the map or its
  `connectDestroyed` is still pending (`LifecycleLateSend.SendNeedsALiveQueue`).
- A hang-up reported with `POLLPRI` or `POLLRDHUP` but without `POLLIN` runs both the close and the
  read callback; if the read finds the end of the stream, the assertion at
  net/TcpConnection.cpp:295 fails. This is so for exactly those masks
  (`LifecycleLimits.ReportAbortsIff`, `Polling.AtMostOneOfCloseAndRead`). No channel asks for
  `POLLRDHUP` (`kReadEvent` is `POLLIN | POLLPRI`, line 15 of net/Channel.cpp), so what epoll can
  report of them is a hang-up with urgent data and without `POLLIN` (`Polling.ReportableHangUp`).
  The life-cycle theorems assume that the kernel reports none of them.
- Tasks that call `ThreadPool::run` can put a bounded pool to sleep for good: every worker blocks
  on the full queue that only workers empty (`TaskPool.TasksCanDeadlock`, `TaskPool.StuckForever`,
  `TaskPool.AllAsleepIffBounded`).
- `ThreadPool::stop` does not signal `notFull_`: it can strand a call of `run` for good if and only
  if that call is blocked at the time (`TaskPool.StopStrandsIffBlocked`).
- A functor queued by a loop's own thread before `loop()` is slept on if and only if no wake-up is
  stored or on its way (`EventLoops.QueueOutsideLoop`). A `quit()`, from whichever thread, is obeyed
  if and only if it is made inside `loop()`, which erases it at its start
  (`EventLoops.QuitObeyedIffInsideLoop`).
- `AsyncLogging::stop` before the writer's first instruction fails the assertion at
  src/AsyncLogging.cpp:69 (`AsyncLog.FailsIffStoppedBeforeEntry`): the thread wrapper counts its
  start latch down before it creates the thread.
- A log message too long for a buffer is refused, but first puts the current buffer aside, even an
  empty one (`LogRounds.OversizedRotate`): 25 of them make the writer drop what is waiting. The drop
  branch needs 50 million bytes waiting, or that much less what was refused
  (`LogRounds.DropNeedsBacklog`).
- Connection names are distinct if and only if the listening address has at most 51 characters
  (`Names.NamesDistinctIff`); `toIpPort` writes at most 51, its buffer bound.

A comment on `TcpConnection::handleClose` says the descriptor is closed by the destructor; the
`Socket` destructor does not close it. The model only assumes that a descriptor is not handed
out again while its connection exists.

## Model

| member | source | states |
|---|---|---|
| `LifecycleTheorems.NoRunAborts` | net/TcpServer.cpp:30-96 | In every interleaving of the base loop, the I/O loops and user threads (each user call's test and action one step), from a started server with any number of I/O loops, no assertion of the server, the connections, the loops, the channels or the poller fails, no operation runs in the wrong thread, no epoll_ctl call is refused, and no functor or callback reaches a destroyed connection |
| `LifecycleTheorems.MappedUntilDestroyed` | net/TcpServer.cpp:79-96 | Each accepted connection is in `connections_` until `connectDestroyed` is queued for it, at most once and only when it is Disconnected; nothing else is in the map |
| `LifecycleTheorems.DestructorSafe` | net/TcpConnection.cpp:47-53 | When the last shared_ptr goes, the connection is Disconnected, its channel has left poller and loop, and nothing queued (raw `this` included) or being dispatched mentions it; a queued `connectDestroyed` is on the connection's own loop behind all its other functors |
| `LifecycleTheorems.CallbackTrace` | net/TcpConnection.cpp:291-305 | The user sees a prefix of up, down that the state determines, and the close callback at most once, under repeated forceClose, peer close and connectDestroyed |
| `LifecycleTheorems.InterestIffOpen` | net/TcpConnection.cpp:371-393 | A connection has a non-empty interest mask, and the kernel watches its descriptor with that mask, exactly while it is Connected or Disconnecting |
| `LifecycleTheorems.OutputDrains` | net/TcpConnection.cpp:227-268 | For every sequence of partial writes, bytes drained then `outputBuffer_` are the bytes put there; writing interest is on exactly when output is left; no half-close of an open connection was issued over undrained output |
| `LifecycleTraffic.SocketGets` | net/TcpConnection.cpp:149-268 | In every run, for every connection: the socket got exactly the bytes that the write calls took, in order; `outputBuffer_` got exactly what the sends left over and gave up exactly what handleWrite's writes took; the half-closes are exactly those of the calls that found nothing being written and of the writes that emptied the output while Disconnecting |
| `LifecycleTraffic.WriteTakes` | net/TcpConnection.cpp:227-268 | For every write result n, exactly the first n bytes of the output leave it for the socket; with the last of them the write-complete notice is queued and, when Disconnecting, one half-close is made |
| `LifecycleTraffic.SendEffect` | net/TcpConnection.cpp:149-202 | On an idle connection the socket gets the bytes write took and the output gets as many bytes as the message has, from after those taken; the write-complete notice is queued if and only if write took nothing, the high-water notice if and only if the message reaches a positive mark; otherwise nothing happens |
| `LifecycleShutdown.WritableDrains` | net/TcpConnection.cpp:227-268 | Whenever a loop polls an open connection with output, POLLOUT and a write of n bytes move exactly the first n bytes of the output to the socket |
| `LifecycleShutdown.ShutdownReachesSocket` | net/TcpConnection.cpp:109-120 | After a shutdown from any state in order, on any thread, in every continuation: while the connection is open with no output left and no shutdownInLoop queued, the socket has been half-closed since |
| `LifecycleShutdown.ShutdownCompletes` | net/TcpConnection.cpp:331-339 | After any such continuation the loops running on and the socket taking the rest lead to the half-close, unless the connection is closed before |
| `LifecycleShutdown.ShutdownEffect` | net/TcpConnection.cpp:109-120 | The rest of shutdown: Disconnecting, with one half-close at once on the own thread when nothing is being written, or shutdownInLoop queued from another |
| `LifecycleCalls.CallQueues` | net/TcpConnection.cpp:73-131 | From another thread send and shutdown on a Connected connection, and forceClose on an open one from any thread, queue exactly their functor on the connection's loop; otherwise nothing changes |
| `LifecycleCalls.CallActs` | net/TcpConnection.cpp:73-120 | On the own thread send and shutdown act at once, on a Connected connection only |
| `LifecycleCalls.LoopThreadSteps` | net/EventLoop.cpp:125-147 | poll hands over what the kernel reports, each dispatch takes the first channel left with all of its callbacks, a swap takes everything pending, and the end of a batch lets go of it |
| `LifecycleCalls.FunctorsInOrder` | net/EventLoop.cpp:240-255 | Functors run from the front of the batch, which owns them until it ends |
| `LifecycleCalls.OtherCallbacks` | net/TcpConnection.cpp:270-312 | A read that is not the end of the stream, and an error, change no connection |
| `LifecycleCalls.AcceptEffect` | net/TcpServer.cpp:30-59 | An accepted connection is in the map under a name it did not have, with the next id and the loop whose turn it is, established at once on the base loop or with its establishment queued there; no other connection changes |
| `LifecycleCalls.HomesInTurn` | net/EventLoopThreadPool.cpp:52-69 | In every run connections are numbered from 1 in order, and the c-th is on the base loop or, with n I/O loops, on loop 1 + (c - 1) mod n |
| `LifecycleCalls.HoldKeepsAlive` | net/TcpConnection.cpp:291-305 | A connection whose shared_ptr the user holds is alive in every continuation until it is released |
| `LifecycleTheorems.OnlyForward` | net/TcpConnection.cpp:109-131 | Between any two points of any run a connection's state only moves forward, its histories only grow, and once out of the map it never returns |
| `LifecycleHandOver.PeerCloseCompletes` | net/TcpServer.cpp:79-96 | From every state with the base loop and the connection's loop polling and nothing queued, the end of an open connection's stream runs the whole hand-over: up and down once, out of the map, the poller and every queue, no other connection changed |
| `LifecycleEnding.CloseCompletes` | net/TcpConnection.cpp:291-305 | From every state in order, a forceClose, a hang-up or the end of the stream, followed by any continuation, can be run on until the connection has ended: reported up and down once, closed and destroyed once, Disconnected, detached and freed |
| `LifecycleEnding.CloseIsNotLost` | net/TcpConnection.cpp:122-131 | In every continuation of such a close the connection is Disconnected or its forceCloseInLoop is still queued on its loop, and it has ended once nothing mentions it and nobody holds it |
| `LifecycleEnding.EndingEnds` | net/TcpServer.cpp:79-96 | Every connection that is Disconnected, or has a forced close queued, ends when the user lets go of it and the loops run on |
| `LifecycleSteps.StepKeepsInv` | net/EventLoop.cpp:116-152 | Every step of every thread succeeds and keeps the life-cycle invariant |
| `LifecycleSteps.AcceptKeepsInv` | net/TcpServer.cpp:30-59 | newConnection succeeds, inline on the base loop or through the queue of the chosen loop, under a fresh name, and keeps the invariant |
| `LifecycleSteps.EstablishingKeepsInv` | net/TcpConnection.cpp:384-393 | connectEstablished finds the connection Connecting and the poller ready for its descriptor |
| `LifecycleSteps.DestroyNowKeepsInv` | net/TcpConnection.cpp:371-382 | connectDestroyed passes every assertion of Channel::remove, EventLoop::removeChannel and Epoller::removeChannel |
| `LifecycleSteps.FunctorFindsConn` | net/EventLoop.cpp:240-255 | The functor at the head of a batch, owning or raw, finds its connection alive and runs in the thread it asserts |
| `LifecycleSteps.RunningFunctorKeepsInv` | net/EventLoop.cpp:240-255 | Running any queued functor succeeds and keeps the invariant |
| `LifecycleSteps.RunningCallbackKeepsInv` | net/EventLoop.cpp:137-145 | Dispatching any callback, at any point of a batch of active channels, succeeds and keeps the invariant |
| `LifecycleProof.CloseConnKeepsInv` | net/TcpConnection.cpp:291-305 | handleClose passes its assertion when its loop is not about to dispatch to the connection again, and keeps the invariant |
| `LifecycleProof.FinishClosingKeepsInv` | net/TcpServer.cpp:79-83 | The close callback removes the connection at once on the base loop, or hands it over, and keeps the invariant |
| `LifecycleProof.RemoveConnKeepsInv` | net/TcpServer.cpp:85-96 | Erasing a closed connection always finds it, whichever loop it came from |
| `LifecycleProof.SendNowKeepsInv` | net/TcpConnection.cpp:149-202 | sendInLoop, whatever write returns, keeps the invariant, writing interest included |
| `LifecycleProof.WriteReadyKeepsInv` | net/TcpConnection.cpp:227-268 | handleWrite, whatever write returns, keeps the invariant |
| `LifecycleProof.UserStepKeepsInv` | net/TcpConnection.cpp:73-131 | send, shutdown and forceClose from any thread, each with its test in one step, keep the invariant |
| `LifecycleProof.WritingIffUndrained` | net/TcpConnection.cpp:149-268 | A channel is writing exactly when its open connection has output left |
| `LifecycleProof.AliveUntilGone` | net/TcpServer.cpp:44-57 | The map and the queued functors always own a connection that is not yet destroyed |
| `LifecycleAsserts.StateAssertions` | net/TcpConnection.cpp:291-305 | connectEstablished fails if and only if the connection is not Connecting, handleClose if and only if it is neither Connected nor Disconnecting |
| `LifecycleAsserts.MapAssertion` | net/TcpServer.cpp:85-96 | removeConnectionInLoop fails if and only if the name is not in connections_ |
| `LifecycleAsserts.RemovalAssertions` | net/TcpConnection.cpp:371-382 | connectDestroyed fails if and only if the loop is handling events, or a connection that is not Connected has a channel with interest or never added |
| `LifecycleAsserts.ThreadAndLifetime` | net/EventLoop.cpp:240-255 | A functor, a callback, a dispatch or a close callback goes through only on a connection that exists and in the thread it asserts |
| `LifecycleLimits.SendConserves` | net/TcpConnection.cpp:149-202 | Sent bytes plus output grow by exactly the message if and only if the message is empty, or the connection is idle and the write takes nothing without a fault |
| `LifecycleLimits.ReportAbortsIff` | net/TcpConnection.cpp:270-305 | For every mask and every polled open connection, reporting the mask can end in the failed assertion of handleClose, by some benign continuation, if and only if the mask makes one dispatch both close and read |
| `LifecycleRaces.ForceNeedsItsCheck` | net/TcpConnection.cpp:122-131 | The rest of forceClose is safe in every continuation if and only if the connection is still open when it is done |
| `LifecycleRaces.LateForceAborts` | net/TcpConnection.cpp:122-131 | From every state whose connection is already Disconnected, a continuation of the rest of forceClose that aborts |
| `LifecycleRaces.ShutdownNeedsItsCheck` | net/TcpConnection.cpp:109-120 | The rest of shutdown is safe in every continuation, destructor included, if and only if the connection is still open when it is done |
| `LifecycleRaces.LateShutdownNeverRecovers` | net/TcpConnection.cpp:109-120 | After the rest of a shutdown on a Disconnected connection, every continuation at all aborts, or leaves the connection alive, or dead and Disconnecting, where the destructor's assertion fails |
| `LifecycleRaces.StepFated` | net/TcpServer.cpp:79-96 | Whatever any thread does, a connection reopened after its close stays Disconnecting, or has more removals on their way than the map can take |
| `LifecycleDrive.Forget` | net/EventLoop.cpp:116-152 | From any state, the loop threads can run on until nothing queued, dispatched or held by a vector mentions a given connection, or until they abort |
| `LifecycleLateSend.SendNeedsALiveQueue` | net/TcpConnection.cpp:73-107 | Queueing a raw-`this` send is safe in every continuation if and only if the connection is still in the map or its connectDestroyed is still pending on its loop |
| `LifecycleLateSend.OrphanAborts` | net/TcpConnection.cpp:73-107 | Otherwise, a continuation in which the functor finds its connection destroyed |
| `LifecycleBeside.StepBeside` | net/EventLoop.cpp:240-255 | Beside a queued functor that owns nothing, every step of every thread does what it does without it, until the functor's turn |
| `Connections.TcpConnection.ConnectEstablished` | net/TcpConnection.cpp:384-393 | In place: the record becomes Connected with one up callback, reading is enabled in channel and kernel, and the connection stays valid with its channel and poller |
| `Connections.TcpConnection.HandleClose` | net/TcpConnection.cpp:291-301 | In place, up to the connection callback: the record becomes Disconnected with one down callback, all interest goes, and the connection stays valid |
| `Connections.TcpServer.CloseConnection` | net/TcpConnection.cpp:291-305 | The whole of handleClose with its close callback: both assertions hold, one up and one down, one close, and the removal done or queued |
| `Connections.TcpServer.RemoveConnection` | net/TcpServer.cpp:79-83 | Erases at once on the base loop, else queues the removal there |
| `Connections.TcpConnection.ForceCloseInLoop` | net/TcpConnection.cpp:341-349 | Closes exactly an open connection and otherwise changes nothing |
| `Connections.TcpConnection.ShutdownInLoop` | net/TcpConnection.cpp:331-339 | Adds exactly one half-close when not writing, and otherwise nothing |
| `Connections.TcpConnection.SendInLoop` | net/TcpConnection.cpp:149-202 | In place, in every state: record, queued notices, writing interest and the poller's tables are those of the model, the poller agrees with the kernel, and a connection that is not Connecting stays valid with its channel |
| `Connections.TcpConnection.HandleWrite` | net/TcpConnection.cpp:227-268 | In place: the first n bytes of the output, written out, move to the socket; the last of them brings the interest change, the notice and, when Disconnecting, one half-close |
| `Connections.TcpConnection.Send` | net/TcpConnection.cpp:73-107 | Sends at once, queues, or ignores, by state and thread |
| `Connections.TcpConnection.Shutdown` | net/TcpConnection.cpp:109-120 | Moves Connected to Disconnecting and half-closes at once or through the queue |
| `Connections.TcpConnection.ForceClose` | net/TcpConnection.cpp:122-131 | Queues a close of an open connection and otherwise changes nothing |
| `Connections.TcpConnection.ConnectDestroyed` | net/TcpConnection.cpp:371-382 | Reports a still-connected connection down, passes every assertion of the removal, and takes the channel out of index and kernel |
| `Connections.TcpServer.NewConnection` | net/TcpServer.cpp:30-59 | Takes the next loop and id, enters a valid fresh connection under a name the map does not have, and runs or queues its establishment |
| `Connections.TcpServer.RemoveConnectionInLoop` | net/TcpServer.cpp:85-96 | Finds the name of every connection not erased before (the assertion n == 1), erases it and queues connectDestroyed on the connection's own loop |
| `EventLoops.NoLostWakeup` | net/EventLoop.cpp:116-198 | In every interleaving a loop in poll with functors pending has a positive eventfd counter or a thread between push and wakeup, unless its own thread queued outside loop(); a loop in poll whose quit_ is set has one too (a quit before loop() leaves it unset) |
| `EventLoops.QueueOutsideLoop` | net/EventLoop.cpp:186-198 | A functor queued by the loop's thread outside loop() is slept on if and only if no wake-up is stored or on its way |
| `EventLoops.FifoExactlyOnce` | net/EventLoop.cpp:240-255 | In every run the functors run, then the rest of the batch, then pendingFunctors_ are exactly the functors that the calls of queneInLoop pushed, in lock order |
| `EventLoops.IterationRunsPending` | net/EventLoop.cpp:125-147 | One iteration runs exactly what was pending when poll returned, in order, and comes back to poll, or leaves loop() if quit_ is set |
| `EventLoops.PendingWorkRuns` | net/EventLoop.cpp:116-198 | From every state in poll with a wake-up stored or on its way, that wake-up and one iteration run everything pending |
| `EventLoops.WakeEffect` | net/EventLoop.cpp:165-173 | A thread on its way to wakeup() can make it, leaving a positive counter and nothing else changed |
| `EventLoops.BatchIsFixed` | net/EventLoop.cpp:240-255 | Whatever is queued meanwhile, the current iteration runs only what the swap took, in order |
| `EventLoops.StepKeepsInv` | net/EventLoop.cpp:71-198 | Every step of the loop thread or of another thread keeps the wake-up invariant |
| `EventLoops.EventLoop.Wakeup` | net/EventLoop.cpp:165-173 | The counter becomes positive |
| `EventLoops.ClearedCounterIsSafe` | net/EventLoop.cpp:71-79 | Reading the eventfd loses no work: in every interleaving, whatever is pending when the counter is cleared has run, in order, when the loop next comes to poll |
| `EventLoops.QuitObeyedIffInsideLoop` | net/EventLoop.cpp:116-163 | After a quit by any thread, no continuation polls again before loop() returns, if and only if the quit is made inside loop() |
| `EventLoops.QuitEndsLoop` | net/EventLoop.cpp:116-152 | Inside loop() with quit_ set, no list of events reaches another poll before loop() returns |
| `EventLoops.EventLoop.Quit` | net/EventLoop.cpp:154-163 | Sets quit_, and wakes the loop from another thread |
| `EventLoops.EventLoop.QueueInLoop` | net/EventLoop.cpp:186-198 | Appends, and wakes the loop from another thread or while it calls functors |
| `EventLoops.EventLoop.RunInLoop` | net/EventLoop.cpp:175-184 | Runs at once on the loop's thread, otherwise queues and wakes |
| `EventLoops.EventLoop.DoPendingFunctors` | net/EventLoop.cpp:240-255 | Runs exactly the swapped batch in order; what the functors and other threads queue meanwhile is pending afterwards, in order, with a wake-up stored |
| `AsyncLog.WriterIsSafe` | src/AsyncLogging.cpp:66-144 | Once the writer runs, no interleaving fails an assertion, takes back() of an empty vector or moves from a null pointer, through drops and resizes |
| `AsyncLog.NothingLostWithoutDrop` | src/AsyncLogging.cpp:36-144 | In every run from start that does not fail, appends before the writer's first instruction included: settled buffers, batch, buffers_ and currentBuffer_ are the messages of the run shorter than a buffer, in lock order; the file holds the settled messages that were not dropped, whole and in order; without a drop the file and what is in flight are everything |
| `AsyncLog.FailsIffStoppedBeforeEntry` | src/AsyncLogging.cpp:66-69 | A run from start fails if and only if stop comes before the writer's first instruction |
| `AsyncLog.StopBeforeEntry` | src/AsyncLogging.cpp:66-69 | The same from every state before the writer's first instruction, whatever follows it |
| `AsyncLog.AppendEffect` | src/AsyncLogging.cpp:36-64 | append stores exactly the messages shorter than a buffer, whole, at the end, whatever the int casts do |
| `AsyncLog.AppendRotates` | src/AsyncLogging.cpp:36-64 | For every length, int casts included: the buffers rotate if and only if the length as an int does not fit what is left of currentBuffer_; the message is last in the same buffer or first in the next, if it fits |
| `LogRounds.BuffersArePacked` | src/AsyncLogging.cpp:43-60 | In every run of messages shorter than a buffer, each buffer put aside, waiting or in the batch, would overflow with the first message of the next |
| `LogRounds.DropNeedsBacklog` | src/AsyncLogging.cpp:110-114 | In every run, a batch that is dropped holds at least 50 million bytes, less what was refused as too long |
| `LogRounds.OversizedRotate` | src/AsyncLogging.cpp:43-60 | n messages too long for a buffer put n buffers aside and store nothing |
| `LogRounds.LockTakesEverything` | src/AsyncLogging.cpp:89-106 | The writer waits if and only if buffers_ is empty, and otherwise, or when the wait ends, takes everything the producers stored |
| `LogRounds.BatchIsWritten` | src/AsyncLogging.cpp:108-141 | From the swap to the next test, a batch of at most 25 buffers is written whole, of a larger one exactly the first two; the producers' side does not change |
| `LogRounds.RoundWritesEverything` | src/AsyncLogging.cpp:79-143 | A whole round writes everything stored, in order, up to 25 buffers, and leaves the producers' side empty |
| `LogRounds.WriterAssertions` | src/AsyncLogging.cpp:66-144 | Each step of the writer fails if and only if an assertion does, a null pointer is moved from, or the back of an empty vector is taken |
| `LogRounds.StoppedWritesNoMore` | src/AsyncLogging.cpp:79-143 | A stopped writer at its test leaves, and in every continuation nothing more is written |
| `AsyncLog.StepKeepsInv` | src/AsyncLogging.cpp:66-144 | Every append and every writer step keeps the buffer invariant: a null nextBuffer_ implies non-empty buffers_, and a missing second spare implies two buffers to recycle |
| `AsyncLog.SwapKeepsShape` | src/AsyncLogging.cpp:89-106 | The swap finds both spares it may need |
| `AsyncLog.RecycleKeepsShape` | src/AsyncLogging.cpp:121-141 | Recycling finds a buffer for each missing spare and empties it |
| `AsyncLog.FixedBuffer.Append` | src/FixedBuffer.h:28-35 | The bytes are appended whole, or not at all when they do not fit |
| `AsyncLog.FixedBuffer.Reset` | src/FixedBuffer.h:49-49 | The buffer is empty |
| `AsyncLog.AsyncLogging.Append` | src/AsyncLogging.cpp:36-64 | In place: the append of the machine |
| `AsyncLog.AsyncLogging.TakeBuffers` | src/AsyncLogging.cpp:89-106 | In place: the whole queue passes to the writer and the spares take its place |
| `AsyncLog.AsyncLogging.WriteBatch` | src/AsyncLogging.cpp:108-119 | Keeps two buffers of a batch over 25 and writes every kept buffer once, in order |
| `AsyncLog.AsyncLogging.Recycle` | src/AsyncLogging.cpp:121-141 | In place: both spares come back from the written batch |
| `TaskPool.NoLostWakeup` | net/ThreadPool.cpp:45-142 | With spurious wake-ups and stealing, unsignalled workers imply no more tasks than signalled workers, unsignalled producers no more free slots than signalled producers, and none of the workers waits unsignalled after stop; tasks are taken in submission order within the bound |
| `TaskPool.TasksInOrder` | net/ThreadPool.cpp:45-142 | In every run the tasks taken, then the queue, are exactly the tasks that the calls of run handed over, in lock order |
| `TaskPool.TakeEffect` | net/ThreadPool.cpp:123-142 | take pops the oldest task of a non-empty queue whether or not the pool runs, and signals a waiting producer of a bounded queue; it waits if and only if the queue is empty and the pool runs; it returns empty-handed if and only if the queue is empty and the pool is stopped |
| `TaskPool.RunEffect` | net/ThreadPool.cpp:45-62 | run waits, task in hand, if and only if the queue is full, and otherwise pushes its task at the back and signals a waiting worker |
| `TaskPool.SpuriousEffect` | net/ThreadPool.cpp:52-55 | A spurious wake-up is possible for every waiting thread and uses up no signal |
| `TaskPool.SomeWorkerAwake` | net/ThreadPool.cpp:91-142 | While the pool runs with tasks queued, some worker waits on neither condition and has not left, in every run in which no task calls run, and in every run on an unbounded queue |
| `TaskPool.OneSideSignalled` | net/ThreadPool.cpp:45-142 | A blocked worker and a blocked producer never both wait unsignalled with nobody signalled |
| `TaskPool.TasksCanDeadlock` | net/ThreadPool.cpp:45-62 | For every set of workers and every bound, a run of tasks that submit tasks after which every worker sleeps beside a full queue |
| `TaskPool.AllAsleepIffBounded` | net/ThreadPool.cpp:45-142 | Everybody can be asleep beside queued tasks if and only if the queue is bounded |
| `TaskPool.StuckForever` | net/ThreadPool.cpp:45-142 | With a full queue and every worker gone or blocked in run, no continuation moves a task or lets a blocked call finish |
| `TaskPool.StopStrandsIffBlocked` | net/ThreadPool.cpp:64-77 | From every running state, a call of stop can strand a thread's call of run for good if and only if that call is blocked at the time |
| `TaskPool.StepKeepsInv` | net/ThreadPool.cpp:45-142 | Every step keeps the monitor invariant |
| `TaskPool.StrandedIffFull` | net/ThreadPool.cpp:64-77 | With the workers gone a blocked producer can finish if and only if the queue is not full |
| `TaskPool.ThreadPool.RunTask` | net/ThreadPool.cpp:45-62 | In place: wait or push and notify one worker; without workers the caller runs the task |
| `TaskPool.ThreadPool.Take` | net/ThreadPool.cpp:123-142 | In place: the oldest task of a non-empty queue, running or stopped, with one producer signalled; blocked if and only if the queue is empty and the pool runs |
| `TaskPool.ThreadPool.Stop` | net/ThreadPool.cpp:64-77 | In place: no worker is left waiting unsignalled |
| `Polling.KernelAgrees` | net/Epoller.cpp:89-168 | After every run of channel creations, mask changes, removals and destructions the kernel watches exactly the channels with index KAdded, with their masks and pointers; no assertion fails and no epoll_ctl call is refused |
| `Polling.SetMaskKeepsAgreement` | net/Epoller.cpp:89-127 | Any mask change of a channel whose descriptor is its own succeeds and keeps the agreement |
| `Polling.DetachKeepsAgreement` | net/Epoller.cpp:129-149 | Removal succeeds if and only if the channel has no interest and was added, and keeps the agreement |
| `Polling.PollerAssertions` | net/Epoller.cpp:89-168 | updateChannel and removeChannel fail if and only if one of their assertions does or epoll_ctl is refused |
| `Polling.UpdateReachesKernel` | net/Epoller.cpp:89-127 | After an update the kernel watches the descriptor with the new mask, unless an added channel gave up its last interest; no other descriptor and no other channel changes |
| `Polling.PerformEffect` | net/Epoller.cpp:89-168 | A new channel starts without interest, a change of mask reaches the channel, a removal takes it out of index and kernel |
| `Polling.ReadingBits` | net/Channel.h:73-77 | enableReading and disableReading switch exactly POLLIN and POLLPRI, for every mask |
| `Polling.WritingBits` | net/Channel.h:73-77 | enableWriting and disableWriting switch exactly POLLOUT, and disableAll every bit |
| `Polling.DispatchByBits` | net/Channel.h:85-85 | For every mask (handleEventWithGuard, defined at lines 111 to 146 of net/Channel.cpp): close iff POLLHUP without POLLIN, error iff POLLERR or POLLNVAL, read iff POLLIN, POLLPRI or POLLRDHUP, write iff POLLOUT, each at most once and in that order |
| `Polling.AtMostOneOfCloseAndRead` | net/Channel.h:85-85 | One dispatch (handleEventWithGuard, defined at lines 111 to 146 of net/Channel.cpp) makes both the close and the read callback if and only if POLLHUP comes with POLLPRI or POLLRDHUP and without POLLIN |
| `Polling.ReportableHangUp` | net/Channel.h:87-89 | Among the masks epoll can report for the events a channel asks for, those are exactly the ones with POLLHUP and POLLPRI and without POLLIN |
| `Polling.Channel.SetInterest` | net/Channel.h:73-79 | In place: the mask, the index, channels_ and the kernel set change together; the poller agrees with the kernel afterwards, no assertion of updateChannel fails and no epoll_ctl call is refused |
| `Polling.Channel.Remove` | net/EventLoop.cpp:207-217 | In place: an added channel without interest leaves index and kernel, the assertions hold, and the poller agrees with the kernel afterwards |
| `Polling.Epoller.UpdateChannel` | net/Epoller.cpp:89-127 | In place: the poller's update function |
| `Polling.Epoller.RemoveChannel` | net/Epoller.cpp:129-149 | In place: the poller's remove function |
| `Polling.Epoller.FillActiveChannels` | net/Epoller.cpp:71-87 | Every channel the kernel hands back is in the index with index KAdded, so the assertions hold; the list and the revents follow the kernel's order |
| `Polling.Epoller.Poll` | net/Epoller.cpp:36-68 | The active list, and a doubled event list exactly when it was filled |
| `ByteBuffer.RunRefines` | net/Buffer.h:123-427 | Over every run of append, prepend, retrieve, unwrite, ensureWritableBytes and readFd in which no assertion fails, from every buffer, prepends into freed headroom included, the readable window is what the operations make of the byte sequence; with at most m bytes demanded at once the array stays within 2m + 7 or its first size |
| `ByteBuffer.RunLayout` | net/Buffer.h:123-427 | Over every such run the position of the window and the size of the array follow from the lengths alone: the array is extended only when sliding would not make room, and a window retrieved to its end starts again behind the headroom |
| `ByteBuffer.NeverFails` | net/Buffer.h:123-374 | A run that stays within the contents and the headroom a caller can count on, at most eight bytes, fails no assertion |
| `ByteBuffer.HeadroomIsExact` | net/Buffer.h:123-374 | An operation succeeds on every buffer with given contents and headroom if and only if it stays within them |
| `ByteBuffer.FreshRefines` | net/Buffer.h:50-58 | A new buffer is an empty byte sequence with eight bytes of headroom |
| `ByteBuffer.ApplyRefines` | net/Buffer.h:123-427 | Every operation that does not fail does to the readable window what it does to a byte sequence, within the space bound |
| `ByteBuffer.AbortsOnlyOnMisuse` | net/Buffer.h:123-374 | An operation fails if and only if the caller prepends more than the headroom, or retrieves or unwrites more than is readable |
| `ByteBuffer.ReceiveRefines` | net/Buffer.cpp:25-57 | readFd appends exactly the bytes received for every legal count, through window and extra block, and receives at most 131071 when the extra block is offered |
| `ByteBuffer.WithSpace` | net/Buffer.h:408-427 | Growing or sliding keeps the readable bytes, makes room, slides only from beyond the cheap-prepend index, and grows below readable + 2 len + 8 |
| `ByteBuffer.IntsRoundTrip` | net/Buffer.h:238-335 | Any sequence of integers appended to any contents is read back unchanged after those contents, on hosts of either byte order |
| `ByteBuffer.PrependedIntRoundTrip` | net/Buffer.h:342-374 | A prepended integer is read first and leaves the rest intact |
| `ByteBuffer.CopyForward` | net/Buffer.h:420-422 | The overlapping forward copy moves the bytes as they were before it |
| `ByteBuffer.Buffer.constructor` | net/Buffer.h:50-58 | A fresh window of the given size |
| `ByteBuffer.Buffer.MakeSpace` | net/Buffer.h:408-427 | In place on the array: the window function, its assertion included |
| `ByteBuffer.Buffer.EnsureWritableBytes` | net/Buffer.h:204-211 | In place: room for len bytes, contents kept |
| `ByteBuffer.Buffer.Append` | net/Buffer.h:192-197 | In place: contents plus the data |
| `ByteBuffer.Buffer.Prepend` | net/Buffer.h:368-374 | In place: the data plus contents |
| `ByteBuffer.Buffer.Retrieve` | net/Buffer.h:123-134 | In place: contents without their first len bytes |
| `ByteBuffer.Buffer.Unwrite` | net/Buffer.h:229-233 | In place: contents without their last len bytes |
| `ByteBuffer.Buffer.ReadFd` | net/Buffer.cpp:25-57 | In place: contents plus all bytes received, or an error that changes nothing |
| `ByteBuffer.Buffer.AppendInt` | net/Buffer.h:238-262 | In place: the integer's bytes in network order are appended |
| `ByteBuffer.Buffer.ReadInt` | net/Buffer.h:268-298 | In place: the first integer, and the contents after it |
| `Endian.EncodedInNetworkOrder` | net/Endian.h:20-48 | On either host the bytes denote the value in network order, most significant byte first, as in Appendix B of RFC 791 |
| `Endian.IntRoundTrip` | net/Endian.h:20-48 | Any host reads back what any host wrote, for every signed value of every width |
| `Names.NamesDistinctIff` | net/TcpServer.cpp:33-37 | Names of distinct positive int ids are pairwise distinct if and only if the address has at most 51 characters |
| `Names.NamesInjective` | net/TcpServer.cpp:33-37 | With such an address nothing is truncated and two ids share a name only if they are equal |
| `Names.LongAddressCollides` | net/TcpServer.cpp:34-37 | With a longer one two ids share a name |
| `Names.RoundRobinShare` | net/EventLoopThreadPool.cpp:52-69 | After m calls over n loops, loop i was chosen (m + n - 1 - i) / n times |
| `Names.EventLoopThreadPool.GetNextLoop` | net/EventLoopThreadPool.cpp:52-69 | The base loop without I/O loops, else, on call m, the loop with index m modulo their number |

## Left out

- System calls: `read`, `write`, `readv`, `epoll_wait`, `epoll_ctl` and eventfd calls are parameters ranging over their legal results; errno is kept only where the code branches on it.
- `ThreadPool::start`, which advances its index twice: the model begins with the workers running.
- `AppendFile::append` and `LogFile`: the log file is a sink that takes every byte, and messages still in memory when the logger stops are not claimed to reach it.
- The `SHUT_RD` that `shutdownWrite` passes: a half-close is an abstract event.
- `startRead`, `stopRead` and `send(const void*, int)`, which check no state, are not among the calls of the life-cycle runs.
- `TcpServer::removeConnection` as a call by the user, which is public: on a Connected connection it would reach the Connected branch of `connectDestroyed`, proved in place (`Connections.TcpConnection.ConnectDestroyed`) but reached by no life-cycle run.
- The destruction of the server, or of a loop, while connections exist: runs begin with a started server and do not end it.
- `handleRead` on data and on errors, and `handleError`: the message callback and logging change nothing in the model; only the end of a stream does.
- Atomicity: in the life-cycle runs the state test of `send`, `shutdown` and `forceClose` and what follows it are one step; the race modules state exactly when splitting them is safe.
- Waiting: a wait loop is one step per evaluation of its condition, and a timed wait may return at any time; nothing is claimed about how soon threads run.
- `TimerQueue`, `Connector`, `TcpClient`, `Acceptor` and their channels: they would add a second protocol that shares none of the server's state.
- The find functions, `retrieveUntil` and string conversions of `Buffer`: single searches and views that add only easy members.
- `InetAddress`, `TimeStamp`, log formatting and the pthread wrappers: formatting, or assumed mutex and condition-variable semantics.
