# A verified model of the multi-reactor TCP server

The repository is a TCP library in the muduo style: a base loop accepts
connections and owns the map of them, sub loops own their input and output, and
the loops hand each other functors through queues guarded by a mutex and
announced through an eventfd.  This project models its core in Dafny and proves
what the code is written to guarantee, over every run and every interleaving.
`dafny verify dfyconfig.toml` checks everything.

## How it is built

Each part has a description on values, whose runs the theorems are about, and,
where the source is an object that updates its fields, a class whose methods are
proved to make exactly the moves of that description.

| part | description | class | theorems |
|---|---|---|---|
| Buffer | `BufferShape` | `ByteBuffer` | `BufferShape` |
| Channel, Poller, EPollPoller | `Registration` | `EPollPoller.dfy` | `Registration` |
| EventLoop | `LoopProtocol` | `EventLoop.dfy` | `LoopProtocol` |
| TcpConnection | `Connection` | `TcpConnection.dfy` | `ConnectionInvariants`, `ConnectionTheorems`, `ConnectionEffects`, `TransferOrder` |
| EchoServer | `Echo` | `Echo` | `Echo` |
| EventLoopThreadPool, names | `ThreadPool`, `Names` | `ThreadPool` | both |
| TcpServer and all its loops | `Lifecycle` | `TcpServer.dfy` | `LifecycleInvariants`, `LifecycleSteps`, `LifecycleTheorems` |
| each loop of the server as a loop | `LoopProjection` | | `LoopProjection` |
| server, connections and their user together | `Joint` | | `JointInvariants`, `JointSteps`, `JointTheorems` |

**Runs.**  `LoopProtocol`, `Connection` and `Lifecycle` are step systems: a label
names a step, `Enabled` says when it may be taken, `Step` what it does, `Legal`
and `After` extend both to a sequence of labels.  In the two concurrent systems a
step ends wherever another thread could first see it: at a push to a queue, at a
store to `quit_`, at a write to an eventfd.  Between the push in `queueInLoop` and
its `wakeup` any other thread may run.

**The whole.**  `Joint` runs the server with a connection of `Connection` for each
one accepted, and with a user who may call any of them whenever their loop is at
work.  Each step is one of a thread's, guarded only by what that thread or the
kernel goes by (`Ready`).  What it does to a connection is a step of `Connection`;
what that makes the connection ask for - a change of mask, a functor on its own
loop, the end of its dispatch, its close - are the steps of `Lifecycle` that go
with it.  `ReadyIsEnabled` shows that the two sides never refuse each other, so
what holds of all runs of either holds of the whole.

**System calls** are outcomes that come with the step and are chosen freely within
what the call allows: `write` and `sendfile` take any prefix or fail, `readv`
fills the first area before the second and returns no more than both hold,
`epoll_wait` reports any registered channels, each descriptor once.

**History.**  `accepted`, `wire`, `sends`, `completes`, `marks`, `ups`, `downs`,
`closes` and `book` of a connection, and `log` and `executed` of a loop, record
what happened.  No branch of the model reads them, apart from the offset and
count that `book` holds on behalf of a queued `sendFileInLoop`; and `Joint` sees
from `completes` and `marks` that a step has just queued a notification.

**Assumptions.**  The server outlives the run.  Buffer lengths fit a `size_t`.
Connection numbers stay below 2^31 and the address is an IPv4 endpoint.  `send`,
`shutdown` and `sendFile` are called on the connection's loop.  No mask has a
hang-up and urgent data but no ordinary data; `DispatchClosesOnceIff` shows that
this is exactly what one close to a dispatch needs, and `SecondCloseReregisters`
what goes wrong otherwise.

## Where the code does less than one would hope

- `sendFileInLoop` logs "disconnected" but tests for `kDisconnecting` only
  (src/TcpConnection.cpp:308-312).  A transfer queued before a shutdown and still
  queued at the close calls sendfile after the FIN
  (`SendFileAfterFinIff`, `SendFileAfterFinHappens`).  A transfer queued when a
  connection closes with bytes waiting is requeued for ever
  (`TransferSurvivesIff`, `StrandedTransfersStay`, `StrandedHappens`), and its functor keeps the
  connection from ever being freed (`StrandedNeverFreed`).
- A transfer that reaches past the end of its file is requeued for ever too, with
  no error: sendfile returns 0 (`LastTurnIff`, `PastEndNeverEnds`).
- A send made between two turns of a transfer goes out in the middle of the file
  (`FileIsSplit`, `ContiguousIff`), and queued transfers take turns
  (`TransfersTakeTurns`).
- `disableAll` on a channel that is not `kAdded` registers it again, with an empty
  mask (`DisableAllUnregistersOnlyAdded`).
- `quit` called before `loop()` has reset the flag is lost (`QuitHoldsIff`), and so
  is a functor queued by the loop's own thread before `loop()`, until something
  else wakes the loop (`NoLostWakeupIff`).
- The table entry of a descriptor is erased whatever channel it names; agreement
  survives exactly when a channel not in the table has its descriptor to itself
  (`SetEventsKeepsAgreement`, `RemoveKeepsAgreement`).

## Model

| member | source | states |
|---|---|---|
| LifecycleTheorems.ExactlyOnePhase | src/TcpServer.cpp:105-139 | In every reachable state each accepted connection is in exactly one of five phases, told apart only by which functor is queued on which loop (once, and nowhere else), by `connections_`, by the poller's table and by the kernel. |
| LifecycleTheorems.PhasesDisjoint | src/TcpServer.cpp:105-139 | Two of these five descriptions never hold together, in any state. |
| LifecycleTheorems.PhasesMoveForward | src/TcpServer.cpp:117-138 | No run takes a connection back to an earlier phase. |
| LifecycleTheorems.TeardownOnce | src/TcpConnection.cpp:158-183 | At most one UP, then one DOWN, then one connectDestroyed, in that order; connectDestroyed has run exactly in the last phase. |
| LifecycleTheorems.DestroyedAfterDispatch | src/EventLoop.cpp:83-96 | When connectDestroyed is about to run, the connection is disconnected, the loop is its own and no reported channel is left undispatched. |
| LifecycleTheorems.DestroyedWhileUp | src/TcpConnection.cpp:173-182 | Called while still connected, connectDestroyed would disconnect, report DOWN and take the channel out of table and kernel, with no refused call. |
| LifecycleTheorems.NoDanglingChannel | src/TcpConnection.cpp:171-183 | Every channel in a table, in a kernel interest set or reported and undispatched belongs to a connection that is not freed and that the map, a queue or a running batch refers to. |
| LifecycleTheorems.FreedAfterRemoval | src/TcpServer.cpp:128-139 | When the last reference goes, the channel has left table, kernel and every active list, and the connection had its UP, DOWN and destruction. |
| LifecycleTheorems.FdInOneTable | src/Poller.cpp:9-14 | A descriptor number is in at most one table of the whole server and names the connection that holds it, however numbers are reused. |
| LifecycleTheorems.PollersAgree | src/EPollPoller.cpp:72-115 | On every loop, in every reachable state, index, table and kernel agree and no epoll_ctl was refused. |
| LifecycleTheorems.NoStrandedFunctor | src/EventLoop.cpp:132-147 | A loop blocked in poll with functors queued has a positive eventfd counter, or another loop's thread stands between its push and its wakeup. |
| LifecycleTheorems.NameIsNew | src/TcpServer.cpp:78-105 | A new connection's name differs from that of every connection ever accepted, so the map entry never overwrites one. |
| LifecycleTheorems.PlacedRoundRobin | src/TcpServer.cpp:73-81 | Connection c, counted from 0, is placed on sub loop c mod n, or on the base loop when n is 0. |
| LifecycleTheorems.NeverStuck | src/EventLoop.cpp:83-96 | In every reachable state the thread of every loop has a step of its own to take. |
| LifecycleTheorems.SecondCloseReregisters | src/TcpConnection.cpp:247-261 | Closing a closed connection again queues its removal twice and puts its channel back into the kernel. |
| LifecycleSteps.PoppedTask | src/EventLoop.cpp:207-210 | A functor of a connection's life taken from a batch was the only one of that connection on any loop, and then there is none. |
| LifecycleSteps.RunKeeps | src/TcpServer.cpp:73-139 | Every run of the loops keeps the invariant on functors, map, pollers, wakeups and names. |
| TcpServerObject.TcpServer.constructor | src/TcpServer.cpp:19-40 | Over loops that have begun to poll, a new server is a start state of `Lifecycle`, its thread pool at the first sub loop. |
| TcpServerObject.TcpServer.NewConnection | src/TcpServer.cpp:73-119 | The map gains one entry under a name nobody had, placed round robin; connectEstablished is pushed onto that EventLoop and onto no other, unless it is the base loop; a legal run of `Lifecycle` (accept, wakeup) that keeps its invariant. |
| TcpServerObject.TcpServer.RemoveConnection | src/TcpServer.cpp:121-126 | Called in the dispatch that closes the connection: on a sub loop the map is left alone and one removal is pushed onto the base EventLoop, so the connection is leaving; on the base loop it is detached at once; a legal run of `Lifecycle` that keeps its invariant. |
| TcpServerObject.TcpServer.RemoveConnectionInLoop | src/TcpServer.cpp:128-139 | As a functor or in such a dispatch: the connection alone leaves the map, one connectDestroyed is pushed onto its own EventLoop and nothing onto the others, and the connection is detached; a legal run of `Lifecycle` that keeps its invariant. |
| JointSteps.ReadyIsEnabled | src/EventLoop.cpp:83-96 | In any state that keeps the invariant, whatever a thread, the kernel or the user is ready for can be done by the connection and by the server, and they agree again afterwards: a reported mask fits the connection, connectEstablished finds it connecting, connectDestroyed disconnected, a sendFileInLoop finds its own request oldest. |
| JointSteps.RunKeeps | src/TcpServer.cpp:73-139 | Every run of loops, connections and user keeps that agreement. |
| JointSteps.TransferIsOldest | src/TcpConnection.cpp:337-343 | The sendFileInLoop due on a loop carries the oldest request of its connection, which is between dispatches. |
| JointTheorems.ServerRunsConnections | src/TcpServer.cpp:73-139 | Both sides of every run from the start are legal runs: of `Lifecycle`, and for each connection of `Connection`, through all its reads, writes, calls and transfers, ending in its state. |
| JointTheorems.MasksAgree | src/Channel.cpp:40-44 | The mask the poller has for a connection is the connection's in every reachable state; while it is up the kernel has it too, with EPOLLOUT exactly while bytes wait. |
| JointTheorems.TransfersAgree | src/TcpConnection.cpp:337-343 | The transfers waiting in the batch and queue of a connection's loop are those it has queued, in its order; no other loop has any. |
| JointTheorems.NotificationsPosted | src/TcpConnection.cpp:99-130 | Over every run, the write-complete and high-water notifications a connection queues are exactly as many as the functors pushed onto its loop for them. |
| JointTheorems.ServerStreams | src/TcpConnection.cpp:82-136 | Of every connection in every interleaving: bytes in the kernel and then bytes waiting are its undropped sends in order. |
| JointTheorems.ServerFins | src/TcpConnection.cpp:138-155 | Of every connection in every interleaving: FIN at most once, after every undropped byte, and no write after it. |
| JointTheorems.ServerEchoes | src/main.cpp:62-69 | Of every connection whose user does what EchoServer does, whatever the others do: bytes in the kernel and then bytes waiting are the bytes read, unless a write was fatal; the input buffer is empty. |
| JointTheorems.FreedIsSilent | src/Channel.cpp:56-72 | No thread is ever ready for a step of a connection that has been freed: no report, no part of a dispatch, no functor and no call. |
| JointTheorems.StrandedNeverFreed | src/TcpConnection.cpp:337-343 | A connection closed with bytes waiting and a transfer queued is never freed, and never can be, in any continuation. |
| JointTheorems.LoopsNeverStuck | src/EventLoop.cpp:83-96 | The thread of every loop always has a step that both sides allow, in the middle of a dispatch as between them. |
| LoopProjection.ServerFollowsProtocol | src/EventLoop.cpp:77-147 | What any loop does in any run of the server is a legal run of `LoopProtocol` from the call of loop(). |
| LoopProjection.ServerFunctorsConserved | src/EventLoop.cpp:132-212 | On every loop of the server: functors executed, then those still waiting, are the functors pushed onto it, by whichever thread, in order. |
| LoopProjection.ServerRunsSnapshots | src/EventLoop.cpp:197-212 | Until a loop of the server ends its next dispatch it executes only functors pending when it ended the last, in order, and all of them by the time it polls. |
| LoopProtocol.NoLostWakeupIff | src/EventLoop.cpp:77-176 | Queued work is never stranded behind a blocked poll, in any interleaving, if and only if nothing was queued unannounced before loop(). |
| LoopProtocol.QuitWakesPoll | src/EventLoop.cpp:101-109 | A loop blocked in poll with quit_ set has been notified or is about to be, in every run. |
| LoopProtocol.QuitHoldsIff | src/EventLoop.cpp:77-109 | A request to quit survives every run if and only if it comes after the reset in loop(). |
| LoopProtocol.FunctorsConserved | src/EventLoop.cpp:132-212 | Executed functors, then the rest of the batch, then the queue are the functors in the order the lock was taken. |
| LoopProtocol.SnapshotRuns | src/EventLoop.cpp:197-212 | Between two swaps only the functors pending at the first run, in order and no more than their number; all of them once the batch ends. |
| LoopProtocol.RunKeepsInvariants | src/EventLoop.cpp:77-212 | Every run keeps the flags, the wakeup invariant and the order of functors. |
| EventLoopObject.EventLoop.QueueInLoop | src/EventLoop.cpp:132-147 | Appends the functor and bumps the counter unless called by the loop thread outside its batch; a legal run of the protocol. |
| EventLoopObject.EventLoop.Wakeup | src/EventLoop.cpp:167-176 | Adds one to the eventfd, which refuses at its top instead of wrapping. |
| EventLoopObject.EventLoop.Quit | src/EventLoop.cpp:101-109 | Sets the flag and wakes the loop when called from another thread. |
| EventLoopObject.EventLoop.HandleRead | src/EventLoop.cpp:152-162 | Zeroes the counter. |
| EventLoopObject.EventLoop.SwapPending | src/EventLoop.cpp:200-206 | Empties the queue into the batch and sets callingPendingFunctors_. |
| EventLoopObject.EventLoop.RunBatch | src/EventLoop.cpp:207-210 | Executes the batch in order; what functors and other threads push meanwhile is left in the queue in order of arrival. |
| EventLoopObject.EventLoop.DoPendingFunctors | src/EventLoop.cpp:197-212 | Executes exactly the functors that were pending; leaves exactly what was pushed meanwhile. |
| EventLoopObject.EventLoop.Iterate | src/EventLoop.cpp:83-96 | One pass: nothing when told to quit, otherwise executes everything queued before the swap, in order, and only that. |
| Registration.SetEventsKeepsAgreement | src/EPollPoller.cpp:72-102 | A change of interest keeps index, table and kernel in agreement if and only if an unregistered channel has its descriptor to itself; then no call is refused. |
| Registration.RemoveKeepsAgreement | src/EPollPoller.cpp:104-115 | The same condition, both ways, for removal. |
| Registration.SetEventsRegisters | src/EPollPoller.cpp:72-102 | ADD, MOD or DEL chosen from index_ alone leaves the kernel with exactly the mask asked for, or without the channel. |
| Registration.RemoveUnregisters | src/EPollPoller.cpp:104-115 | Removal takes the channel out of table and kernel and makes it kNew, from whichever state. |
| Registration.InterestIsWatched | src/EPollPoller.cpp:72-102 | After any change to a mask with some interest the kernel has the channel with that mask, from whichever state. |
| Registration.RemovedIsGone | src/EPollPoller.cpp:104-115 | After removal the index is kNew and the descriptor is in neither table nor kernel. |
| Registration.DisableAllUnregistersOnlyAdded | src/EPollPoller.cpp:78-96 | disableAll takes the channel out of the kernel if and only if it was kAdded; otherwise it registers an empty mask. |
| Registration.RunKeepsAgreement | src/EPollPoller.cpp:72-115 | With one channel to a descriptor, any sequence of enable, disable and remove is never refused and keeps the agreement; hasChannel answers whether the index is not kNew. |
| EPoll.Channel.Update | src/Channel.cpp:40-44 | Stores the mask and registers it; keeps the records in order, with no refused call. |
| EPoll.Channel.EnableReading | include/Channel.h:65 | Adds reading to the registered mask. |
| EPoll.Channel.EnableWriting | include/Channel.h:67 | Adds writing to the registered mask. |
| EPoll.Channel.DisableWriting | include/Channel.h:68 | Takes writing from the registered mask. |
| EPoll.Channel.DisableAll | include/Channel.h:69 | Gives up all interest. |
| EPoll.Channel.Remove | src/Channel.cpp:47-50 | Removes the channel from its poller; keeps the records in order. |
| EPoll.EPollPoller.UpdateChannel | src/EPollPoller.cpp:72-102 | On the object's fields and the kernel set, the move of `Registration`. |
| EPoll.EPollPoller.RemoveChannel | src/EPollPoller.cpp:104-115 | Likewise for removal. |
| EPoll.EPollPoller.HasChannelReadsIndex | src/Poller.cpp:9-14 | hasChannel holds if and only if the index is not kNew. |
| EPoll.EPollPoller.Poll | src/EPollPoller.cpp:36-70 | Activates each reported channel once, in order, with its own mask; each is registered and still in the table; the event list doubles exactly when filled; a timeout or an error activates nothing and changes nothing. |
| EPoll.EPollPoller.FillActiveChannels | src/EPollPoller.cpp:117-126 | Masks go to the channels reported and to no other. |
| ConnectionTheorems.StreamConserved | src/TcpConnection.cpp:82-136 | Over every run, bytes in the kernel and then bytes waiting are the undropped sends in order; while up, EPOLLOUT is asked for exactly while bytes wait. |
| ConnectionTheorems.InputConserved | src/TcpConnection.cpp:186-209 | Over every run, bytes the user took and then bytes in the input buffer are the bytes read from the socket, in order. |
| ConnectionTheorems.FinIsLastAndSingle | src/TcpConnection.cpp:138-155 | At most one FIN, after every undropped byte was written, immediate or deferred, and no write after it; a connection being shut down has sent it exactly when nothing waits. |
| ConnectionTheorems.SendFileAfterFinIff | src/TcpConnection.cpp:303-315 | After a FIN, a queued transfer calls sendfile if and only if the connection was closed meanwhile. |
| ConnectionTheorems.SendFileAfterFinHappens | src/TcpConnection.cpp:303-315 | A concrete run that does so. |
| ConnectionTheorems.StateMovesForward | src/TcpConnection.cpp:138-183 | state_ never goes back, in any run. |
| ConnectionTheorems.CallbacksOnce | src/TcpConnection.cpp:158-183 | One UP on establishment, one DOWN on disconnection; closeCallback_ once if a step of the run other than connectDestroyed disconnected, otherwise never. |
| ConnectionTheorems.DisconnectedIsFinal | src/TcpConnection.cpp:212-261 | After disconnection no call, no rest of the dispatch and no connectDestroyed registers the channel, reads, writes to the stream, sends FIN or calls the connection or close callback. |
| ConnectionTheorems.DispatchClosesOnceIff | src/Channel.cpp:88-108 | One dispatch closes at most once, whatever it reads, if and only if the mask is not hang-up with urgent and without ordinary data. |
| ConnectionTheorems.NotifiedWhenDrained | src/TcpConnection.cpp:218-228 | A write-complete notification is queued only with every accepted byte in the kernel. |
| ConnectionTheorems.DrainedIsNotified | src/TcpConnection.cpp:218-228 | With the callback set, the step that empties the output buffer, or a non-empty send taken whole at once, always queues one. |
| ConnectionTheorems.NotificationsBounded | src/TcpConnection.cpp:93-105 | Notifications, one owed for waiting bytes and one for each transfer under way never exceed the requests. |
| ConnectionTheorems.FiringIsExact | src/TcpConnection.cpp:120-130 | The high-water callback fires if and only if it is set and the step takes the backlog across the mark upwards; it reports the backlog right after. |
| ConnectionTheorems.HighWaterIsEdgeTriggered | src/TcpConnection.cpp:120-130 | Between two firings some handleWrite took the backlog below the mark. |
| ConnectionTheorems.FilesConserved | src/TcpConnection.cpp:303-344 | For each transfer offset plus remaining is constant and the bytes emitted are the file from start to offset, in order, each once, over any retries and requeues. |
| ConnectionTheorems.NoTransferForgotten | src/TcpConnection.cpp:308-343 | Over every run in which no transfer meets a fatal error or has its turn while disconnecting, a transfer's functor is queued if and only if bytes of it remain. |
| ConnectionTheorems.TransferSurvivesIff | src/TcpConnection.cpp:308-343 | After a close, a queued transfer survives every outcome of its next run if and only if bytes were left waiting. |
| ConnectionTheorems.StrandedTransfersStay | src/TcpConnection.cpp:337-343 | In that case no run takes any transfer off the queue. |
| ConnectionTheorems.StrandedHappens | src/TcpConnection.cpp:337-343 | A concrete run that closes with bytes waiting and a transfer queued. |
| ConnectionTheorems.LateNotificationIff | src/TcpConnection.cpp:319-323 | After disconnection a step queues a write-complete notification if and only if it is a turn in which a queued transfer sends its last bytes. |
| TransferOrder.SendsOvertakeFiles | src/TcpConnection.cpp:313-343 | Between two moments with nothing waiting, such as two chunks of a file, the stream bytes on the wire are exactly the undropped sends made between them. |
| TransferOrder.FileIsSplit | src/TcpConnection.cpp:313-343 | A concrete run in which a send goes out in the middle of a file. |
| TransferOrder.ContiguousIff | src/TcpConnection.cpp:313-343 | Between two turns of a transfer queued alone no other file's byte goes out, and no stream byte if and only if no send was made and not dropped. |
| TransferOrder.TransfersTakeTurns | src/TcpConnection.cpp:337-343 | A requeued transfer has its next turn after each one queued before it has had exactly one, in order. |
| TransferOrder.LastTurnIff | src/TcpConnection.cpp:313-324 | A turn can finish the transfer if and only if the request does not reach past the end of the file. |
| TransferOrder.PastEndNeverEnds | src/TcpConnection.cpp:337-343 | A request past the end of its file, if not given up, is queued after every run. |
| ConnectionTheorems.RunAccepts | src/TcpConnection.cpp:106-117 | Over every run the accepted bytes grow by just the sends made while connected, but those whose direct write met EPIPE or ECONNRESET. |
| ConnectionEffects.WriteTakes | src/TcpConnection.cpp:214-234 | When the kernel takes n > 0 of the waiting bytes, just these go on the wire and leave the buffer; EPOLLOUT stays asked for exactly while some are left; the draining write of a connection being shut down is followed by FIN. |
| ConnectionEffects.WriteTakesNone | src/TcpConnection.cpp:235-238 | A handleWrite that writes nothing or fails leaves everything as it was. |
| ConnectionEffects.WriteNotDue | src/TcpConnection.cpp:240-243 | Without EPOLLOUT in the mask, or once disconnected, the write part does nothing. |
| ConnectionEffects.KernelGetsWhatItTakes | src/TcpConnection.cpp:82-136 | Over every run the stream on the wire is exactly what the kernel answered that it took of what it was offered: sends with nothing waiting, and waiting bytes at each EPOLLOUT. |
| ConnectionEffects.SendTaken | src/TcpConnection.cpp:93-105 | With nothing waiting the kernel gets its prefix at once and the rest waits, EPOLLOUT asked for exactly then. |
| ConnectionEffects.SendFails | src/TcpConnection.cpp:106-135 | A direct write that meets EPIPE or ECONNRESET drops the data and changes neither buffer nor mask; after any other error the data waits and EPOLLOUT is asked for. |
| ConnectionEffects.SendWaits | src/TcpConnection.cpp:119-135 | Behind waiting bytes the data joins them and the kernel is not asked. |
| ConnectionEffects.SendRefused | src/TcpConnection.cpp:63-79 | A send while not connected changes nothing. |
| ConnectionEffects.ShutdownTakesEffect | src/TcpConnection.cpp:138-155 | shutdown moves a connected connection to disconnecting whatever waits; FIN goes at once exactly when nothing does. |
| ConnectionEffects.ShutdownHolds | src/TcpConnection.cpp:138-155 | In every run after a shutdown no send is accepted, and until the close the FIN is on the wire exactly when nothing waits. |
| ConnectionEffects.DrainSendsFin | src/TcpConnection.cpp:220-232 | The write that drains a connection being shut down puts FIN right behind the last accepted byte. |
| ConnectionEffects.ReadFails | src/TcpConnection.cpp:203-208 | A read error changes nothing but the part of the dispatch that is due: the connection stays up. |
| ConnectionEffects.ReadDelivers | src/TcpConnection.cpp:186-197 | Bytes read join the input when the mask asks for a read, and nothing else changes. |
| ConnectionEffects.ReadClosesIff | src/TcpConnection.cpp:198-202 | The read part closes a live connection if and only if the mask asks for a read and it finds the end of file; closing is one DOWN, one closeCallback_, no interest. |
| ConnectionEffects.HangUpClosesIff | src/Channel.cpp:88-94 | The first part closes if and only if the mask has a hang-up and no ordinary data; otherwise it changes nothing. |
| ConnectionEffects.DisconnectsIff | src/TcpConnection.cpp:247-261 | Apart from connectDestroyed no step disconnects but these two. |
| ConnectionEffects.EstablishTakesEffect | src/TcpConnection.cpp:158-168 | connectEstablished: connected, reading asked for, one UP, nothing else. |
| ConnectionEffects.DestroyTakesEffect | src/TcpConnection.cpp:171-183 | connectDestroyed: DOWN and no interest only from connected; the channel removed in every case; nothing else. |
| ConnectionEffects.TurnTakes | src/TcpConnection.cpp:313-343 | A turn of a transfer with nothing waiting puts the n bytes of the file from the offset on the wire, moves the offset past them and requeues the rest at the back. |
| ConnectionEffects.TurnFails | src/TcpConnection.cpp:325-343 | EPIPE and ECONNRESET end the transfer; after any other error it is requeued as it was. |
| ConnectionEffects.TurnWaits | src/TcpConnection.cpp:308-343 | Behind waiting bytes a transfer only goes to the back of the queue; while disconnecting it is dropped. |
| ConnectionEffects.SendFileBegins | src/TcpConnection.cpp:281-300 | A request while connected is booked and has such a turn at once. |
| ConnectionEffects.NotifiesIff | src/TcpConnection.cpp:93-105 | With the callback set a step queues one write-complete notification if and only if the kernel takes all that a send, the buffer or a transfer still has. |
| ConnectionInvariants.RunKeeps | src/TcpConnection.cpp:63-344 | Every run keeps the stream, mask, FIN, dispatch, callback, counting and file invariants together. |
| ConnectionInvariants.HandleWriteKeeps | src/TcpConnection.cpp:212-244 | Whatever it takes, handleWrite keeps the stream, mask, FIN and counting invariants; what it writes is WriteTakes. |
| TcpConnectionObject.TcpConnection.constructor | src/TcpConnection.cpp:28-54 | Connecting, both buffers empty, nothing registered. |
| TcpConnectionObject.TcpConnection.Send | src/TcpConnection.cpp:63-79 | Sends only while connected. |
| TcpConnectionObject.TcpConnection.SendInLoop | src/TcpConnection.cpp:82-136 | On the two buffers, the channel and the state, the move of `Connection` that SendTaken, SendFails and SendWaits describe; the poller is told the mask exactly when it changes, and the kernel then has it. |
| TcpConnectionObject.TcpConnection.WriteDirectly | src/TcpConnection.cpp:93-118 | Writes at once; the fault is raised if and only if the error is EPIPE or ECONNRESET, and otherwise what the kernel left is to be buffered. |
| TcpConnectionObject.TcpConnection.BufferRest | src/TcpConnection.cpp:119-135 | Appends the rest, asks for EPOLLOUT by registering it with the poller, and fires the high-water mark on an upward crossing. |
| TcpConnectionObject.TcpConnection.Shutdown | src/TcpConnection.cpp:138-146 | The move that ShutdownTakesEffect describes: disconnecting at once, FIN unless bytes wait. |
| TcpConnectionObject.TcpConnection.ShutdownInLoop | src/TcpConnection.cpp:149-155 | FIN exactly when EPOLLOUT is not asked for. |
| TcpConnectionObject.TcpConnection.HandleWrite | src/TcpConnection.cpp:212-244 | Writes from the output buffer and consumes exactly what the kernel took, as WriteTakes says; on draining stops asking, in the poller too, notifies and sends a due FIN. |
| TcpConnectionObject.TcpConnection.AfterDrain | src/TcpConnection.cpp:221-233 | What draining does, in that order. |
| TcpConnectionObject.TcpConnection.HandleRead | src/TcpConnection.cpp:186-209 | Appends exactly the bytes read; end of file, and nothing else, closes; an error changes nothing, as ReadFails says; tells whether the message callback is due. |
| TcpConnectionObject.TcpConnection.HandleClose | src/TcpConnection.cpp:247-261 | Disconnected, the poller told to give up all interest, DOWN and closeCallback_ once each. |
| TcpConnectionObject.TcpConnection.ConnectEstablished | src/TcpConnection.cpp:158-168 | Connected, registered for reading with the kernel, UP. |
| TcpConnectionObject.TcpConnection.ConnectDestroyed | src/TcpConnection.cpp:171-183 | From connected disconnects and reports DOWN; in every case the channel is removed from the poller: index kNew, out of the table and out of the kernel. |
| TcpConnectionObject.TcpConnection.SendFile | src/TcpConnection.cpp:281-300 | Starts a transfer only while connected. |
| TcpConnectionObject.TcpConnection.SendFileInLoop | src/TcpConnection.cpp:303-344 | The move that TurnTakes, TurnFails and TurnWaits describe, on the real queue and the real masks. |
| Echo.EchoIsFaithful | src/main.cpp:62-69 | End to end, with any chunking and partial writes and no fatal write: bytes in the kernel, then bytes waiting, are the bytes received; the input buffer is empty after every step. |
| Echo.EchoRunKeeps | src/main.cpp:62-69 | What is accepted for sending is what was delivered in order, less the messages whose echo was dropped. |
| Echo.DispatchIsEchoRun | src/Channel.cpp:77-116 | One dispatch with the echo callback is a run of the echo system: its handlers add nothing else. |
| Echo.EchoServer.OnMessage | src/main.cpp:62-69 | Empties the input buffer and sends exactly its bytes. |
| Echo.EchoServer.HandleEvent | src/Channel.cpp:77-116 | Hang-up, error, read and write parts in that order, all on the mask reported, whatever earlier parts changed. |
| Echo.EchoServer.ReadAndAnswer | src/TcpConnection.cpp:186-209 | handleRead with its message callback, made only when bytes arrived. |
| BufferShape.SpaceBound | include/Buffer.h:90-155 | Over any run of append, retrieve and readFd the vector never shrinks and its size is bounded by the initial size and the peak backlog P: the larger of 8 + initial, P + 8 and 2P + 6. |
| BufferShape.SpaceBoundIsTight | include/Buffer.h:138-155 | For every peak of two or more some run reaches the bound. |
| BufferShape.MakeSpaceMakesRoom | include/Buffer.h:138-155 | Room suffices, readable bytes keep their number, and sliding happens only when the read index is past the reserve; growth exactly under the tested condition. |
| ByteBuffer.SlideDown | include/Buffer.h:149-151 | The ascending overlapping copy moves the bytes intact. |
| ByteBuffer.Scatter | src/Buffer.cpp:28-40 | readv fills the first area before the second. |
| ByteBuffer.Buffer.constructor | include/Buffer.h:35-40 | Empty, indices at the reserve. |
| ByteBuffer.Buffer.Retrieve | include/Buffer.h:56-66 | Drops the first len bytes, or all when there are no more than len. |
| ByteBuffer.Buffer.RetrieveAll | include/Buffer.h:69-73 | Empties the buffer and resets the indices. |
| ByteBuffer.Buffer.RetrieveAsString | include/Buffer.h:80-85 | Returns the first len bytes and drops them. |
| ByteBuffer.Buffer.RetrieveAllAsString | include/Buffer.h:75 | Returns all readable bytes and leaves none. |
| ByteBuffer.Buffer.MakeSpace | include/Buffer.h:138-155 | Grows or slides; the readable bytes stay. |
| ByteBuffer.Buffer.EnsureWritableBytes | include/Buffer.h:90-96 | Afterwards len bytes fit; the readable bytes stay. |
| ByteBuffer.Buffer.Append | include/Buffer.h:104-109 | The readable bytes are the old ones followed by the data. |
| ByteBuffer.Buffer.ReadFd | src/Buffer.cpp:16-58 | Appends exactly the bytes read, across both areas; an error changes nothing. |
| ByteBuffer.Buffer.TakeScattered | src/Buffer.cpp:46-56 | From the two areas as readv left them, the bytes are appended in order. |
| ByteBuffer.Buffer.AppendOverflow | src/Buffer.cpp:51-56 | Counts the first area as full and appends the overflow behind it. |
| ByteBuffer.Buffer.WriteFd | src/Buffer.cpp:68-76 | Offers the readable bytes, tells the prefix taken and consumes nothing. |
| ThreadPool.EventLoopThreadPool.GetNextLoop | src/EventLoopThreadPool.cpp:51-68 | The k-th call, counted from 0, returns sub loop k mod n, or the base loop when there is none. |
| ThreadPool.RoundRobinBalanced | src/EventLoopThreadPool.cpp:51-68 | In any window of k consecutive connections each of n sub loops gets k / n of them, rounded down or up. |
| ThreadPool.PlacedIs | src/EventLoopThreadPool.cpp:51-68 | Exactly which: the full turns, and one more if the loop's place falls in the part turn. |
| Names.DecimalInjective | src/TcpServer.cpp:80 | Different numbers are printed differently. |
| Names.DecimalReadsBack | src/TcpServer.cpp:80 | The printed text is read back as the number, and has no leading zero. |
| Names.NothingCut | src/TcpServer.cpp:78-83 | For an IPv4 endpoint and an int the suffix fits the 64-character buffer whole. |
| Names.NameIs | src/TcpServer.cpp:78-83 | So the name is the server's name, a dash, the endpoint, a hash sign and the number, in full. |
| Names.NamesUnique | src/TcpServer.cpp:78-83 | Distinct numbers give distinct connection names. |
| Names.IpPortLength | src/InetAddress.cpp:33-45 | The text of an IPv4 endpoint has at most 21 characters. |

## Left out

- Cross-thread `send`: the functor keeps a raw pointer into the caller's string (src/TcpConnection.cpp:75-76); only calls on the connection's loop are modelled, which is what EchoServer makes.
- Cross-thread `shutdown`: state_ is tested and then set without a lock (src/TcpConnection.cpp:140-144); only calls on the connection's loop are modelled.
- `~TcpServer`, and functors still queued when a loop quits: the server outlives the run.
- The shared_ptr held by an undispatched channel's tie (src/Channel.cpp:56-72): `lock` always succeeds, because NoDanglingChannel shows the connection alive whenever a channel of it is dispatched.
- Acceptor, Socket, InetAddress parsing, Logger, Timestamp, CurrentThread and DefaultPoller: wrappers of system calls, logging and clock. A handleError that only logs is a step that changes nothing.
- Thread and EventLoopThread start-up: a handshake with a condition variable that would add only easy claims.
- disableReading: it changes the mask like its three siblings and nothing calls it.
- Recursive calls of `loop()`, destructors of functors that queue functors, and size_t overflow of lengths.
- Liveness and timeouts: a poll that returns with nothing reported covers the ten-second timeout; that a notified loop does return from poll is not stated.
- The user's callbacks: what they call is modelled as steps that follow; what else they do is not.
- LifecycleTheorems.NoStrandedFunctor: functors that hold no connection are not in `Lifecycle`; NoLostWakeupIff covers those.
- LifecycleTheorems.ExactlyOnePhase: in `Lifecycle` alone write interest is switched at will while the connection is up; that it follows the output buffer is MasksAgree.
- ConnectionTheorems.CallbacksOnce: masks with a hang-up and urgent but no ordinary data are not reported, see DispatchClosesOnceIff.
- ConnectionTheorems.FinIsLastAndSingle: no sendfile after the FIN is not stated, because it is false; SendFileAfterFinIff gives the condition.
- JointSteps.ReadyIsEnabled: a mask is chosen when its dispatch begins, by the interest registered then, which allows every mask that epoll_wait could have returned earlier; executing a notification is a step without effect, and what it calls are calls of the user.
- TcpServerObject.TcpServer.NewConnection: the TcpConnection itself is an object of `TcpConnection.dfy`, not built here; on the base loop the connectEstablished called at once is in the ghost world only.
- EventLoopObject.EventLoop.Iterate: one pass of loop(), whose number of passes is unbounded; the functors queued before the swap come as one list, and the handlers that queue them are not called one by one.
- EPoll.EPollPoller.UpdateChannel: an epoll_ctl that fails while the records agree is not modelled, so neither is the fatal log it leads to.
- Names.NamesUnique: numbers beyond the int range are not modelled; the counter of the source would overflow there.
