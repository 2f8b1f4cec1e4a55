# A model of the muduo-cpp11 reactor, with proofs

This project models the stateful core of the muduo-cpp11 network library in Dafny and proves what holds over
whole runs of it: the hand-off of functors to an event loop, the life of connections across loops, the output
path of a connection, the timer queue, the two pollers, the byte buffer, the bounded thread pool, the outgoing
connector and the incremental HTTP request parser.

`dafny verify dfyconfig.toml` checks everything.

## How a core is modelled

Most cores have two layers.

* A value layer: a `State`, the `Event`s that can happen (calls from any thread, answers of the kernel, timers,
  callbacks), `Enabled`, `Step`, and `Run` over any sequence of events. Invariants are proved step by step, and the
  main results are statements about `Run(Init(..), es)` for every legal `es`. A thread is between two atomic steps
  wherever the source leaves a lock or makes a system call, so a run is an arbitrary interleaving.
* An object layer: a class with the fields of the source's class, updated in place, down to heap objects where the
  source has them (connections behind a map of references, channels). Every method is proved to carry its `View()` along the corresponding step, and `Schedule` carries it along any run, so that the theorems
  about runs are theorems about the object. Ghost fields record history (bytes taken by the kernel, sockets closed,
  functors executed) and are never read by real code.

The buffer is a class over an array that refines a plain byte string. The parser is a function on byte strings with
its laws, and a class-based loop over the buffer that is proved to compute that function.

| file | source |
|---|---|
| `Text.dfy` | byte-string searches used by the buffer and the parser |
| `Buffer.dfy` | `muduo-cpp11/net/buffer.h`, `buffer.cpp` |
| `HttpParser.dfy` | `muduo-cpp11/net/http/http_server.cpp`, `http_request.h`, `http_context.h` |
| `EventLoop.dfy` | `muduo-cpp11/net/event_loop.cpp` |
| `ThreadPool.dfy` | `muduo-cpp11/base/thread_pool.cpp` |
| `OutputPath.dfy` | `muduo-cpp11/net/tcp_connection.cpp`, sending and half-close |
| `Interests.dfy`, `PollPoller.dfy`, `EPollPoller.dfy`, `PollerAgreement.dfy` | `muduo-cpp11/net/channel.h`, `muduo-cpp11/net/poller/` |
| `Connector.dfy` | `muduo-cpp11/net/connector.cpp` |
| `TimerQueue.dfy` | `muduo-cpp11/net/timer_queue.cpp`, `timer.h`, `timer.cpp` |
| `ConnectionNames.dfy`, `Lifecycle.dfy`, `LifecycleProgress.dfy`, `TcpServer.dfy` | `muduo-cpp11/net/tcp_server.cpp`, `tcp_connection.cpp`, `channel.cpp` |

## Where the code does not meet the property one would expect

Each of these is kept as the code has it, shown by a concrete run or input, and delimited by an exact condition.

* A functor queued by the loop thread before `Loop()` is not woken (`EventLoops.EarlyQueueIsNotWoken`); the first
  poll waits its whole timeout exactly in that case (`EventLoops.NoLostWakeup`).
* `ThreadPool::Stop` does not release producers blocked on a full queue (`ThreadPools.StopStrandsProducer`); once the
  workers have left, such a producer can return exactly if the queue is not full (`ThreadPools.ProducerReleasedIff`).
* A message sent by another thread before its own `Shutdown` can be dropped, because a draining write issues SHUT_WR
  ahead of the queued send (`OutputPath.SendBeforeShutdownCanBeDropped`, `OutputPath.QueuedSendDroppedIff`).
* `PollPoller` goes on ignoring an emptied channel that is enabled again, and `EPollPoller` adds back with an empty
  mask a channel that is emptied twice (`PollerAgreement.ReenabledChannel`, `PollerAgreement.EmptiedTwice`); the two
  agree exactly on disciplined runs (`PollerAgreement.AgreementIff`).
* `HttpContext::Reset` loses the remote address and keeps the old version until the next request line
  (`HttpParser.ResetExample`, `HttpParser.ResetParsesAsNew`); a rejected request line keeps its method, so that the assertion in `set_method`
  would fail on a second attempt (`HttpParser.RejectedLineExample`, `HttpParser.RejectedLineKeepsMethod`).
* One dispatch can close a connection twice on a hangup without input that carries PRI or RDHUP; the assertions hold
  exactly otherwise (`Lifecycle.DoubleCloseHappens`, `Lifecycle.DispatchSafeIff`, `Lifecycle.ConnectionLifecycle`).
* Connection names repeat from the 10^(29 - |host:port|)-th connection on (`ConnectionNames.FirstCollision`,
  `ConnectionNames.NamesDistinctIff`), unless the counter overflows first (`ConnectionNames.NamesDistinctInRangeIff`).

## Model

| member | source | states |
|---|---|---|
| `EventLoops.NoLostWakeup` | muduo-cpp11/net/event_loop.cpp:145-217 | in every interleaving, the loop is blocked in poll with functors pending and no wakeup readable or on its way if and only if it is in its first poll, its own thread queued before `Loop()`, and no other thread has queued or quit |
| `EventLoops.NoLostQuit` | muduo-cpp11/net/event_loop.cpp:188-198 | a loop blocked in poll with `quit_` set always has a wakeup readable or on its way |
| `EventLoops.EarlyQueueIsNotWoken` | muduo-cpp11/net/event_loop.cpp:208-217 | a legal run exists in which the loop blocks with a functor pending and nothing to wake it |
| `EventLoops.FunctorOrder` | muduo-cpp11/net/event_loop.cpp:208-217 | in every run executed functors, then the rest of the batch, then the pending ones are exactly the functors that the calls of `QueueInLoop` were given, in the order of the calls |
| `EventLoops.FunctorBatch` | muduo-cpp11/net/event_loop.cpp:314-328 | the i-th functor executed is the i-th pushed and runs in the first batch swapped after its push, so one queued by a running functor is never in the same batch |
| `EventLoops.PendingCanRun` | muduo-cpp11/net/event_loop.cpp:145-179 | from every reachable state, unless `Quit` was called on a started loop, the loop by its own steps executes everything queued so far |
| `EventLoops.StopsOnlyOnQuit` | muduo-cpp11/net/event_loop.cpp:134-198 | in every run `quit_` is set exactly by a `Quit` that no later entry into `Loop` undid, and `Loop` returns only when it is set |
| `EventLoops.QuitCanStop` | muduo-cpp11/net/event_loop.cpp:145-198 | from every reachable state of a started loop with `quit_` set, the loop stops by its own steps |
| `EventLoops.WakeupsAreConsumed` | muduo-cpp11/net/event_loop.cpp:278-312 | in every run the wakeup descriptor is readable exactly if it was written since it was last read |
| `EventLoops.ReportedIsRead` | muduo-cpp11/net/event_loop.cpp:168-173 | a wakeup that poll reports is read before the dispatch ends |
| `EventLoops.StepKeepsWakeups` | muduo-cpp11/net/event_loop.cpp:145-179 | every step of every thread keeps: pending work outside dispatch is covered by a wakeup, and a loop-thread push inside a batch is followed by its own |
| `EventLoops.StepKeepsOrder` | muduo-cpp11/net/event_loop.cpp:314-328 | every step keeps the order of executed, batch and pending functors and their batch numbers |
| `EventLoops.StepKeepsStart` | muduo-cpp11/net/event_loop.cpp:134-179 | every step keeps, until the first return from poll, that another thread has called exactly if a wakeup is readable or on its way |
| `EventLoops.RunKeepsInv` | muduo-cpp11/net/event_loop.cpp:134-217 | every legal run keeps the invariant |
| `EventLoops.EventLoop.Perform` | muduo-cpp11/net/event_loop.cpp:134-328 | every step of the object, which keeps plain vectors of functors and a loop index, is the step of the model, which stamps every functor with the batch it was queued in |
| `EventLoops.EventLoop.Schedule` | muduo-cpp11/net/event_loop.cpp:134-217 | for any schedule of all threads the object ends in the state of the run |
| `Lifecycle.ConnectionLifecycle` | muduo-cpp11/net/tcp_server.cpp:88-142 | over every run of the base loop and any number of I/O loops, every assertion met holds (among them that the erase finds its entry) if and only if no dispatch closes twice; then each connection is established, closed, erased and destroyed at most once and in that order, and is in the map, under its name, exactly until erased, hence while not disconnected |
| `Lifecycle.NothingForgotten` | muduo-cpp11/net/tcp_server.cpp:120-142 | when the queues of the connection's loop and of the base loop are empty, it was established exactly once, and closed, erased and destroyed exactly once if it is disconnected and never otherwise |
| `Lifecycle.EventsOnlyWhileUp` | muduo-cpp11/net/tcp_connection.cpp:271-289 | events are dispatched to a connection only after it was established and before it was closed; inside a dispatch the read callback still finds it so if and only if the poll result is not a hangup without input |
| `LifecycleProgress.DispatchCloses` | muduo-cpp11/net/channel.cpp:86-118 | in every reachable state a dispatch closes its connection once for HUP without IN and once for IN, PRI or RDHUP with an end of file, and not otherwise |
| `LifecycleProgress.OrdinaryLife` | muduo-cpp11/net/tcp_connection.cpp:291-308 | on the run "accept, IN with end of file, functor" the connection ends established, closed, erased and destroyed once, and the map is empty |
| `LifecycleProgress.CloseCompletes` | muduo-cpp11/net/tcp_server.cpp:123-142 | from every reachable state in which a connection is closed, the loops by their own steps erase and destroy it, whichever loops they are |
| `LifecycleProgress.QueuedCanRun` | muduo-cpp11/net/event_loop.cpp:314-328 | from every reachable state each queued functor comes to its turn by the loops' own steps |
| `LifecycleProgress.ForceCloseCloses` | muduo-cpp11/net/tcp_connection.cpp:228-250 | after `ForceClose` on a connection that is up, in every continuation it is closed as soon as its functor no longer waits |
| `LifecycleProgress.NeverConnectedAgain` | muduo-cpp11/net/tcp_connection.cpp:186-234 | a connection that has left the connected state never returns to it |
| `LifecycleProgress.CallsTakeEffect` | muduo-cpp11/net/tcp_connection.cpp:92-104 | on a connected connection `Send` and `Shutdown` from another thread queue one functor each, and `Shutdown` and `ForceClose` make it disconnecting |
| `LifecycleProgress.StepQueues` | muduo-cpp11/net/event_loop.cpp:208-217 | a queue loses nothing but its front, and that only when its loop runs it |
| `LifecycleProgress.StepForward` | muduo-cpp11/net/tcp_server.cpp:88-142 | no step takes back a stage of a connection or moves it to another loop |
| `Lifecycle.RawPointersAreLive` | muduo-cpp11/net/tcp_connection.cpp:92-104 | whenever a `SendInLoop` or `ShutdownInLoop` queued with a raw `this` is about to run, it is in the loop of its connection and `ConnectDestroyed` of that connection has not run |
| `Lifecycle.AssertsIffSingle` | muduo-cpp11/net/channel.cpp:86-118 | from every reachable good state, the assertions of a run hold if and only if no dispatch of it closes twice |
| `Lifecycle.DoubleCloseHappens` | muduo-cpp11/net/channel.cpp:86-118 | a run exists (accept, poll, then HUP and PRI without IN and an end of file) whose last dispatch breaks the assertion of `HandleClose` |
| `Lifecycle.DestroyedOutsideDispatch` | muduo-cpp11/net/tcp_connection.cpp:281-289 | the only step that destroys a connection is a functor of its own loop, in the functor phase and after the erase |
| `Lifecycle.BatchIsReady` | muduo-cpp11/net/event_loop.cpp:314-328 | a loop inside a batch can always run its next functor, which concerns an existing connection |
| `Lifecycle.DoubleCloseIff` | muduo-cpp11/net/channel.cpp:86-118 | one dispatch calls `HandleClose` twice exactly on HUP without IN but with PRI or RDHUP and an end of file, and never more than twice |
| `Lifecycle.DispatchSafeIff` | muduo-cpp11/net/tcp_connection.cpp:344-360 | dispatching an active connection meets only true assertions if and only if the poll result and the read are not of that kind |
| `Lifecycle.StepKeepsCore` | muduo-cpp11/net/tcp_server.cpp:88-142 | every step keeps each connection's account: each stage reached was carried out once or waits once in the right queue |
| `Lifecycle.StepKeepsNaming` | muduo-cpp11/net/tcp_server.cpp:92-95 | every step keeps that each connection has the uncut name of its id |
| `Lifecycle.StepKeepsRaw` | muduo-cpp11/net/tcp_connection.cpp:186-193 | every step keeps that no functor with a raw pointer stands behind the destruction of its connection, and that none waits after it |
| `Lifecycle.StepKeepsInv` | muduo-cpp11/net/tcp_server.cpp:88-142 | every step of every loop keeps the whole invariant |
| `Lifecycle.RunKeepsInv` | muduo-cpp11/net/tcp_server.cpp:88-142 | every legal run keeps the invariant |
| `Lifecycle.EstablishKeeps` | muduo-cpp11/net/tcp_connection.cpp:271-279 | carrying out an establishment that is in hand settles the account, and its assertion holds |
| `Lifecycle.CloseKeeps` | muduo-cpp11/net/tcp_connection.cpp:344-360 | closing a connection that is up and no longer active, on the base loop or elsewhere, settles the account |
| `Lifecycle.RemoveKeeps` | muduo-cpp11/net/tcp_server.cpp:128-142 | a removal in hand finds its entry, leaves all other entries, and hands over to the destruction |
| `Lifecycle.DestroyKeeps` | muduo-cpp11/net/tcp_connection.cpp:281-289 | a destruction in hand, in the functor phase, finds a disconnected connection without interest |
| `Lifecycle.AcceptKeeps` | muduo-cpp11/net/tcp_server.cpp:88-121 | a new connection enters under a fresh name, with its establishment done or queued once |
| `Lifecycle.AcceptRecord` | muduo-cpp11/net/tcp_server.cpp:88-121 | exactly one record is added, under the next id and for the chosen loop, established at once on the base loop |
| `Lifecycle.DispatchKeeps` | muduo-cpp11/net/channel.cpp:78-125 | a dispatch that closes at most once keeps the invariant |
| `Lifecycle.DisconnectingKeeps` | muduo-cpp11/net/tcp_connection.cpp:186-234 | the state change of `Shutdown` and `ForceClose` from any thread, at any moment, keeps the invariant |
| `Lifecycle.ConnectedIsSafe` | muduo-cpp11/net/tcp_connection.cpp:92-104 | while a connection is connected nothing that destroys it is queued, so a raw functor may be |
| `TcpServers.TcpServer.constructor` | muduo-cpp11/net/tcp_server.cpp:28-45 | ids start at 1, and the map is empty |
| `TcpServers.TcpServer.RemoveConnectionInLoop` | muduo-cpp11/net/tcp_server.cpp:128-142 | the reference leaves the map, found by name, and the destruction is queued with a reference for the loop of the connection |
| `TcpServers.TcpServer.HandleClose` | muduo-cpp11/net/tcp_connection.cpp:344-360 | the object goes down, and no other connection object changes |
| `TcpServers.TcpServer.ConnectDestroyed` | muduo-cpp11/net/tcp_connection.cpp:281-289 | refines the destroy step, with the assertions of `Channel::Remove` and of the loop |
| `TcpServers.TcpServer.NewConnection` | muduo-cpp11/net/tcp_server.cpp:88-121 | a new connection object enters the map and the accounts; its establishment is run or queued with a reference to it |
| `TcpServers.TcpServer.HandleEvent` | muduo-cpp11/net/channel.cpp:78-125 | refines the dispatch step, close callback before read callback |
| `TcpServers.TcpServer.RunNext` | muduo-cpp11/net/event_loop.cpp:314-328 | the front functor leaves its queue and runs on the object it refers to |
| `TcpServers.TcpServer.Perform` | muduo-cpp11/net/tcp_server.cpp:88-142 | every step of the heap of connection objects, the map of references and the queues of functors is the step of the model |
| `TcpServers.TcpServer.Schedule` | muduo-cpp11/net/tcp_server.cpp:88-142 | for any schedule of all loops and threads the object ends in the state of the run |
| `ConnectionNames.NameInjective` | muduo-cpp11/net/tcp_server.cpp:92-95 | below 10^(29 - length of host:port) the name determines the id |
| `ConnectionNames.FirstCollision` | muduo-cpp11/net/tcp_server.cpp:92-95 | the first id that does not fit gets the name of an earlier one |
| `ConnectionNames.NamesDistinctIff` | muduo-cpp11/net/tcp_server.cpp:92-95 | connections 1 to n have distinct names if and only if n is below that power of ten |
| `ConnectionNames.NamesDistinctInRangeIff` | muduo-cpp11/net/tcp_server.cpp:92-95 | in the range of the `int` counter, names are distinct if and only if host:port has at most 19 characters or n is below that power of ten |
| `ConnectionNames.LongestIpv4HostPort` | muduo-cpp11/net/tcp_server.cpp:92-95 | with the longest IPv4 host:port the bound is 10^8 |
| `ConnectionNames.NameExample` | muduo-cpp11/net/tcp_server.cpp:92-95 | the name of connection 42 of "echo" on 127.0.0.1:80 |
| `ConnectionNames.DecimalInjective` | muduo-cpp11/net/tcp_server.cpp:93 | decimal notation determines the number |
| `ConnectionNames.DecimalLength` | muduo-cpp11/net/tcp_server.cpp:93 | a number has at most d digits if and only if it is below 10^d |
| `OutputPath.OutputConservation` | muduo-cpp11/net/tcp_connection.cpp:126-184 | in every run the bytes taken by the kernel, then the output buffer, equal the accepted messages in order, for any partial writes and errors |
| `OutputPath.WholeMessages` | muduo-cpp11/net/tcp_connection.cpp:126-184 | over every run, the messages handed to `SendInLoop` fall into the accepted and the dropped ones, each in order; a message is dropped exactly after disconnecting or on EPIPE or ECONNRESET of a direct write; kernel and buffer hold the bytes of the accepted ones, whole, and nothing else |
| `OutputPath.GracefulHalfClose` | muduo-cpp11/net/tcp_connection.cpp:168-201 | while not disconnected, write interest is on exactly when bytes are buffered, and after SHUT_WR every accepted byte has reached the kernel; a connection that is down has no write interest |
| `OutputPath.ShutdownIsCarriedOut` | muduo-cpp11/net/tcp_connection.cpp:310-326 | a shutdown that took effect is issued, queued or waiting for buffered bytes, and in the last case the write that drains them issues it |
| `OutputPath.HighWatermarkExactly` | muduo-cpp11/net/tcp_connection.cpp:168-178 | a step queues the high-watermark callback, with the new size, exactly when it takes the buffer from below the mark to it or above |
| `OutputPath.WriteCompleteMeansDone` | muduo-cpp11/net/tcp_connection.cpp:143-150 | the write-complete callback is queued only when everything accepted has been taken by the kernel |
| `OutputPath.WriteCompleteIff` | muduo-cpp11/net/tcp_connection.cpp:143-150 | the write-complete callback is queued exactly when a direct write takes a whole message or a drain empties the buffer |
| `OutputPath.NothingHeldBack` | muduo-cpp11/net/tcp_connection.cpp:310-326 | over every run as many bytes have left as the writes, whole or partial, reported |
| `OutputPath.StateFollowsCalls` | muduo-cpp11/net/tcp_connection.cpp:186-234 | over every run the connection is connected until the first `Shutdown`, `ForceClose` or close, down from the first close on, and a shutdown has taken effect exactly if the first of them was a `Shutdown` |
| `OutputPath.CallsQueue` | muduo-cpp11/net/tcp_connection.cpp:92-104 | calls from another thread queue their functor at the end, and only while connected |
| `OutputPath.SendBeforeShutdownCanBeDropped` | muduo-cpp11/net/tcp_connection.cpp:316-326 | in the run "one byte buffered, another thread sends m, then shuts down, the byte is drained, the send runs", m is dropped although the kernel took every byte offered before SHUT_WR |
| `OutputPath.QueuedSendDroppedIff` | muduo-cpp11/net/tcp_connection.cpp:92-201 | over every run from the queueing of a send to its turn, with a peer that breaks the connection only after SHUT_WR, it is dropped if and only if in between a write drained the buffer of a disconnecting connection, a half-close found the buffer empty, or the connection closed; otherwise it is accepted |
| `OutputPath.RunEndsIff` | muduo-cpp11/net/tcp_connection.cpp:186-201 | SHUT_WR is issued or the connection is down after a run exactly if it was before or some step of the run is one of those three kinds |
| `OutputPath.QueueMoves` | muduo-cpp11/net/tcp_connection.cpp:92-104 | functors reach their turn in the order of the queue, whatever else happens |
| `OutputPath.RunSorts` | muduo-cpp11/net/tcp_connection.cpp:126-184 | a run from any state adds its surviving messages to the accepted and the others to the dropped ones, in order |
| `OutputPath.SendConserves` | muduo-cpp11/net/tcp_connection.cpp:126-184 | one `SendInLoop` keeps the stream equal to the accepted messages |
| `OutputPath.DrainConserves` | muduo-cpp11/net/tcp_connection.cpp:310-342 | one `HandleWrite` keeps the stream equal to the accepted messages |
| `OutputPath.StepConserves` | muduo-cpp11/net/tcp_connection.cpp:126-342 | every step keeps the stream equal to the accepted messages |
| `OutputPath.StepKeepsRest` | muduo-cpp11/net/tcp_connection.cpp:168-201 | every step keeps the write interest and remembers a requested shutdown |
| `OutputPath.RunKeepsInv` | muduo-cpp11/net/tcp_connection.cpp:126-342 | every legal run keeps the invariant |
| `OutputPath.TcpConnection.AppendRemaining` | muduo-cpp11/net/tcp_connection.cpp:168-183 | the rest is appended to the buffer, writing is on, and the mark is reported when crossed |
| `OutputPath.TcpConnection.SendInLoop` | muduo-cpp11/net/tcp_connection.cpp:126-184 | refines the send step over the real three-zone buffer |
| `OutputPath.TcpConnection.ShutdownInLoop` | muduo-cpp11/net/tcp_connection.cpp:195-201 | SHUT_WR is issued unless writing is on |
| `OutputPath.TcpConnection.HandleWrite` | muduo-cpp11/net/tcp_connection.cpp:310-342 | refines the drain step |
| `OutputPath.TcpConnection.HandleClose` | muduo-cpp11/net/tcp_connection.cpp:344-360 | the connection is down and write interest is off |
| `OutputPath.TcpConnection.SendMessage` | muduo-cpp11/net/tcp_connection.cpp:92-104 | sends at once on the loop thread, queues on another, and does nothing unless connected |
| `OutputPath.TcpConnection.Shutdown` | muduo-cpp11/net/tcp_connection.cpp:186-193 | refines the shutdown step on either kind of thread |
| `OutputPath.TcpConnection.RequestForceClose` | muduo-cpp11/net/tcp_connection.cpp:228-234 | the state change of a forced close |
| `OutputPath.TcpConnection.RunQueued` | muduo-cpp11/net/tcp_connection.cpp:126-201 | refines the run of one queued send or shutdown |
| `OutputPath.TcpConnection.Schedule` | muduo-cpp11/net/tcp_connection.cpp:126-342 | for any schedule of calls and kernel answers the object ends in the state of the run |
| `TimerQueues.TimerOwnership` | muduo-cpp11/net/timer_queue.cpp:163-250 | in every state each timer ever created is in exactly one of hand-off, queue, running batch and freed, and is freed at most once |
| `TimerQueues.CancelledInNoLaterBatch` | muduo-cpp11/net/timer_queue.cpp:163-177 | once a queued or running timer is cancelled, also from its own callback, no batch taken later contains it, over any continuation of the run |
| `TimerQueues.StaleIdIsHarmless` | muduo-cpp11/net/timer.h:29-35 | a cancel leaves every timer with another sequence number as it was, even at the address in the id |
| `TimerQueues.NoMissedDeadline` | muduo-cpp11/net/timer_queue.cpp:163-274 | outside `HandleRead`, if timers remain the timerfd has fired or is armed no later than the earliest expiration or 100 microseconds after it was set |
| `TimerQueues.TwinIndexAgreement` | muduo-cpp11/net/timer_queue.cpp:163-274 | in every state the two sets hold the same timers and as many, sorted, each keyed at its timer's current expiration |
| `TimerQueues.BatchIsExactlyTheDue` | muduo-cpp11/net/timer_queue.cpp:205-223 | a batch is exactly the timers due at now, in expiration order, and the rest stay queued; the timerfd has been read and not re-armed |
| `TimerQueues.CallbacksOfBatch` | muduo-cpp11/net/timer_queue.cpp:182-203 | a batch that comes to its end has run exactly the callbacks of the timers that were queued at its beginning and due then, each once, in expiration order, those cancelled meanwhile included |
| `TimerQueues.FateOfBatch` | muduo-cpp11/net/timer_queue.cpp:225-239 | each timer that was due comes back at the time of the beginning plus its interval if it repeats and its id was not cancelled while the batch ran, and is freed if not |
| `TimerQueues.AddedAsAsked` | muduo-cpp11/net/timer_queue.cpp:116-140 | whatever happens between `AddTimer` and its `AddTimerInLoop`, the timer is then in both sets at the time asked for, with the interval asked for |
| `TimerQueues.EndReschedules` | muduo-cpp11/net/timer_queue.cpp:225-250 | at the end of a batch a repeating timer that was not cancelled is queued at now plus its interval, and every other one is freed |
| `TimerQueues.ResetDecides` | muduo-cpp11/net/timer_queue.cpp:228-239 | the same for the loop of `Reset`, for each timer of the batch |
| `TimerQueues.ResetLeavesOthers` | muduo-cpp11/net/timer_queue.cpp:228-239 | that loop changes no timer outside the batch and loses no queued entry |
| `TimerQueues.BatchIsAllocated` | muduo-cpp11/net/timer_queue.cpp:196-199 | every timer of a running batch is allocated, whatever callbacks cancelled |
| `TimerQueues.TimespecExact` | muduo-cpp11/net/timer_queue.cpp:37-50 | seconds and nanoseconds give the delay back exactly, are in range, and never disarm the timerfd |
| `TimerQueues.Delay` | muduo-cpp11/net/timer_queue.cpp:38-42 | at least 100 microseconds, and exact from there on |
| `TimerQueues.Arm` | muduo-cpp11/net/timer_queue.cpp:61-72 | the timerfd is set for the time asked for, or 100 microseconds from now if that is later |
| `TimerQueues.InsertSorted` | muduo-cpp11/net/timer_queue.cpp:262-264 | inserting a new entry keeps the order |
| `TimerQueues.EraseMembers` | muduo-cpp11/net/timer_queue.cpp:169 | erasing removes exactly that entry, keeps the order, and never makes the front earlier |
| `TimerQueues.DueSplits` | muduo-cpp11/net/timer_queue.cpp:208-212 | the lower bound separates the due entries from the others |
| `TimerQueues.CreateKeeps` | muduo-cpp11/net/timer_queue.cpp:116-123 | allocation on any thread, also at a reused address, keeps the invariant |
| `TimerQueues.AddKeeps` | muduo-cpp11/net/timer_queue.cpp:130-140 | an add, outside or inside a batch, keeps the invariant |
| `TimerQueues.CancelQueuedKeeps` | muduo-cpp11/net/timer_queue.cpp:168-172 | cancelling a queued timer keeps the invariant although it does not re-arm |
| `TimerQueues.BeginKeeps` | muduo-cpp11/net/timer_queue.cpp:182-194 | taking a batch keeps the invariant |
| `TimerQueues.EndKeeps` | muduo-cpp11/net/timer_queue.cpp:200-250 | the end of a batch keeps the invariant and restores the deadline |
| `TimerQueues.StepKeepsInv` | muduo-cpp11/net/timer_queue.cpp:116-274 | every step keeps the invariant |
| `TimerQueues.CancelledGrows` | muduo-cpp11/net/timer_queue.cpp:163-177 | a cancellation is never undone |
| `TimerQueues.TimerQueue.NewTimer` | muduo-cpp11/net/timer.h:29-35 | the next sequence number at an address not in use, and the id returned names it |
| `TimerQueues.TimerQueue.InsertTimer` | muduo-cpp11/net/timer_queue.cpp:252-274 | both sets gain the timer; tells whether the earliest expiration changed |
| `TimerQueues.TimerQueue.AddTimerInLoop` | muduo-cpp11/net/timer_queue.cpp:130-140 | refines the add step |
| `TimerQueues.TimerQueue.CancelInLoop` | muduo-cpp11/net/timer_queue.cpp:163-177 | refines the cancel step |
| `TimerQueues.TimerQueue.GetExpired` | muduo-cpp11/net/timer_queue.cpp:205-223 | the due prefix leaves both sets and becomes the batch |
| `TimerQueues.TimerQueue.TakeExpired` | muduo-cpp11/net/timer_queue.cpp:182-194 | refines the begin step |
| `TimerQueues.TimerQueue.RunCallback` | muduo-cpp11/net/timer_queue.cpp:196-199 | one turn of the loop over the batch runs the callback of its next timer |
| `TimerQueues.TimerQueue.ResetFirst` | muduo-cpp11/net/timer_queue.cpp:230-238 | one turn of the loop of `Reset` |
| `TimerQueues.TimerQueue.Reset` | muduo-cpp11/net/timer_queue.cpp:228-239 | the loop of `Reset` handles the whole batch |
| `TimerQueues.TimerQueue.FinishExpired` | muduo-cpp11/net/timer_queue.cpp:200-250 | refines the end step, with the final re-arm |
| `TimerQueues.TimerQueue.Schedule` | muduo-cpp11/net/timer_queue.cpp:116-274 | for any schedule, with adds and cancels between callbacks, the object ends in the state of the run |
| `PollerAgreement.AgreementIff` | muduo-cpp11/net/poller/poll_poller.cpp:79-145 | for every run, both pollers expose exactly the non-empty interests in every state if and only if the run is disciplined |
| `PollerAgreement.DisciplineIsBothGuards` | muduo-cpp11/net/poller/epoll_poller.cpp:96-128 | the discipline is exactly the conjunction of what the two pollers need |
| `PollerAgreement.AgreeIsBothCorrect` | muduo-cpp11/net/poller/epoll_poller.cpp:96-164 | agreement throughout a run is correctness of each throughout it |
| `PollerAgreement.ReenabledChannel` | muduo-cpp11/net/poller/poll_poller.cpp:105-112 | on the run "enable, empty, enable again" epoll watches exactly what is wanted throughout and poll does not |
| `PollerAgreement.EmptiedTwice` | muduo-cpp11/net/poller/epoll_poller.cpp:102-113 | on the run "enable, empty, empty again" poll watches exactly what is wanted throughout and epoll does not |
| `PollPollers.PollAgreesIff` | muduo-cpp11/net/poller/poll_poller.cpp:79-145 | poll watches exactly the non-empty interests throughout a run if and only if every step meets poll's guard |
| `PollPollers.CorrectIffGuarded` | muduo-cpp11/net/poller/poll_poller.cpp:79-145 | the same from any state that is right |
| `PollPollers.UpdateExposesIff` | muduo-cpp11/net/poller/poll_poller.cpp:79-114 | one update keeps poll right if and only if the guard holds |
| `PollPollers.RemoveExposes` | muduo-cpp11/net/poller/poll_poller.cpp:116-145 | a removal leaves what the other slots show |
| `PollPollers.UpdateKeepsBijection` | muduo-cpp11/net/poller/poll_poller.cpp:79-114 | every update keeps the one-to-one match of channels and slots |
| `PollPollers.RemoveKeepsBijection` | muduo-cpp11/net/poller/poll_poller.cpp:132-144 | so does every removal by swapping with the last slot |
| `PollPollers.MovedIsLive` | muduo-cpp11/net/poller/poll_poller.cpp:137-142 | the lookup after the swap finds a registered channel other than the removed one |
| `PollPollers.StepKeeps` | muduo-cpp11/net/poller/poll_poller.cpp:79-145 | every step keeps the match, and every slot carries its channel's current mask |
| `PollPollers.RemovalIsIgnored` | muduo-cpp11/net/poller/poll_poller.cpp:129-131 | as long as poll is right, the slot of a channel that may be removed is ignored and empty, as `RemoveChannel` asserts |
| `PollPollers.PollPoller.UpdateChannel` | muduo-cpp11/net/poller/poll_poller.cpp:79-114 | refines the update step under the source's assertions |
| `PollPollers.PollPoller.RemoveChannel` | muduo-cpp11/net/poller/poll_poller.cpp:116-145 | refines the remove step; the removed channel keeps its index and so cannot be registered again |
| `PollPollers.PollPoller.Schedule` | muduo-cpp11/net/poller/poll_poller.cpp:79-145 | any guarded run of updates and removals, on channel objects, meets the assertions of the source and ends in the state of the run |
| `PollPollers.PollPoller.ChannelOf` | muduo-cpp11/net/poller/poll_poller.cpp:68-71 | the lookup of a watched slot finds the registered channel with its descriptor |
| `PollPollers.PollPoller.FillActiveChannels` | muduo-cpp11/net/poller/poll_poller.cpp:61-77 | although it stops early, reports exactly the active slots, in order, as registered channels |
| `PollPollers.ActiveMeaning` | muduo-cpp11/net/poller/poll_poller.cpp:61-77 | that report has every active slot and no other, with its events, and as many entries as poll counted |
| `EPollPollers.FatalIsUnreachable` | muduo-cpp11/net/poller/epoll_poller.cpp:150-164 | in every run, disciplined or not, ADD is issued only for absent and MOD and DEL only for present descriptors, so neither error branch is reached |
| `EPollPollers.EPollAgreesIff` | muduo-cpp11/net/poller/epoll_poller.cpp:96-148 | the kernel watches exactly the non-empty interests throughout a run if and only if every step meets epoll's guard |
| `EPollPollers.CorrectIffGuarded` | muduo-cpp11/net/poller/epoll_poller.cpp:96-148 | the same from any state that is right |
| `EPollPollers.StepExposesIff` | muduo-cpp11/net/poller/epoll_poller.cpp:96-148 | one step keeps epoll right if and only if the guard holds |
| `EPollPollers.StepKeepsInv` | muduo-cpp11/net/poller/epoll_poller.cpp:96-148 | every step keeps that the tag tells exactly what the kernel holds |
| `EPollPollers.EPollPoller.Control` | muduo-cpp11/net/poller/epoll_poller.cpp:150-164 | one control operation against the kernel set, with its two error branches |
| `EPollPollers.EPollPoller.UpdateChannel` | muduo-cpp11/net/poller/epoll_poller.cpp:96-128 | refines the update step under the source's assertions |
| `EPollPollers.EPollPoller.RemoveChannel` | muduo-cpp11/net/poller/epoll_poller.cpp:130-148 | refines the remove step and makes the channel new again |
| `EPollPollers.EPollPoller.Schedule` | muduo-cpp11/net/poller/epoll_poller.cpp:96-164 | any run of updates and removals, on channel objects, ends in the state of the run without a refused control operation |
| `ByteBuffer.SpaceBound` | muduo-cpp11/net/buffer.h:346-361 | over every run the array never exceeds the larger of the initial size plus 8 and twice the peak demand plus 7 |
| `ByteBuffer.ReserveBound` | muduo-cpp11/net/buffer.h:346-361 | a resize costs at most twice the readable plus requested length, plus 7 |
| `ByteBuffer.ApplyBound` | muduo-cpp11/net/buffer.h:105-193 | every operation keeps the bound |
| `ByteBuffer.RunBound` | muduo-cpp11/net/buffer.h:105-193 | every run keeps the bound |
| `ByteBuffer.ShrinkSize` | muduo-cpp11/net/buffer.h:319-325 | shrinking leaves the default size or exactly what content and reserve need |
| `ByteBuffer.Buffer.constructor` | muduo-cpp11/net/buffer.h:44-51 | an empty content and eight prependable bytes |
| `ByteBuffer.Buffer.FindCRLF` | muduo-cpp11/net/buffer.h:78-81 | the first CR LF of the content, or none |
| `ByteBuffer.Buffer.Retrieve` | muduo-cpp11/net/buffer.h:105-112 | drops a prefix of the content |
| `ByteBuffer.Buffer.RetrieveAll` | muduo-cpp11/net/buffer.h:136-139 | empties the content |
| `ByteBuffer.Buffer.RetrieveAsString` | muduo-cpp11/net/buffer.h:145-150 | the result followed by the new content is the old content |
| `ByteBuffer.Buffer.Append` | muduo-cpp11/net/buffer.h:160-164 | the content grows by the bytes at its end |
| `ByteBuffer.Buffer.EnsureWritableBytes` | muduo-cpp11/net/buffer.h:170-175 | the content is unchanged and there is room for the request |
| `ByteBuffer.Buffer.MakeSpace` | muduo-cpp11/net/buffer.h:346-361 | by a resize or a compaction, without losing a byte; the assertion before compacting holds |
| `ByteBuffer.Buffer.Compact` | muduo-cpp11/net/buffer.h:351-359 | the overlapping copy inside the array keeps the content |
| `ByteBuffer.Buffer.HasWritten` | muduo-cpp11/net/buffer.h:185-188 | the bytes in the writable zone become content |
| `ByteBuffer.Buffer.Unwrite` | muduo-cpp11/net/buffer.h:190-193 | drops a suffix of the content |
| `ByteBuffer.Buffer.Prepend` | muduo-cpp11/net/buffer.h:312-317 | the content grows by the bytes at its front |
| `ByteBuffer.Buffer.Shrink` | muduo-cpp11/net/buffer.h:319-325 | the content is unchanged in a new array |
| `ByteBuffer.Buffer.ReadFd` | muduo-cpp11/net/buffer.cpp:27-52 | a two-vector read appends exactly the bytes read, and an error changes nothing |
| `HttpParser.ChunkingIndependence` | muduo-cpp11/net/http/http_server.cpp:61-99 | however the stream is cut into chunks, result, context and unread bytes are those of parsing it in one piece |
| `HttpParser.ParseAppend` | muduo-cpp11/net/http/http_server.cpp:61-99 | parsing a and then what follows equals parsing both at once |
| `HttpParser.ProgressConsumes` | muduo-cpp11/net/http/http_server.cpp:64-97 | a call that succeeds and changes the context consumes at least two bytes |
| `HttpParser.NoMethodBeforeLine` | muduo-cpp11/net/http/http_request.h:49-50 | as long as no line was rejected, no method is set before the request line |
| `HttpParser.RejectedLineKeepsMethod` | muduo-cpp11/net/http/http_request.h:49-66 | after a rejected line that assertion still holds exactly if the line did not start with a known method and a space |
| `HttpParser.RejectedLineExample` | muduo-cpp11/net/http/http_request.h:49-66 | "GET x" is rejected and leaves the method GET behind |
| `HttpParser.HeadersNeverFail` | muduo-cpp11/net/http/http_server.cpp:79-93 | no input fails once the request line was accepted |
| `HttpParser.ResetParsesAsNew` | muduo-cpp11/net/http/http_context.h:60-64 | after `Reset` every input parses as in a new context, up to the version before a request line is accepted and the lost remote address, with the exact condition |
| `HttpParser.ResetExample` | muduo-cpp11/net/http/http_request.h:154-161 | after "GET / HTTP/1.1" was served and the context reset, its version is still HTTP/1.1 and its address is empty, unlike those of a new context |
| `HttpParser.RoundTrip` | muduo-cpp11/net/http/http_server.cpp:27-99 | a well-formed request, printed and parsed, gives back method, path, query, version and headers, and leaves what follows unread |
| `HttpParser.StoredHeaders` | muduo-cpp11/net/http/http_request.h:128-139 | with distinct fields each header is found under its field and nothing else changes |
| `HttpParser.HeaderParses` | muduo-cpp11/net/http/http_request.h:128-139 | a header line with any white space around its value stores the trimmed value |
| `HttpParser.HeadersParse` | muduo-cpp11/net/http/http_server.cpp:79-93 | printed header lines and the empty line complete the request |
| `HttpParser.LineParses` | muduo-cpp11/net/http/http_server.cpp:27-57 | a printed request line gives its four parts back |
| `HttpParser.AcceptedIff` | muduo-cpp11/net/http/http_server.cpp:27-57 | a line is accepted if and only if it is one of five methods, a target without spaces and one of two versions, separated by single spaces; the request then carries the method, the target split at its first question mark, and the version |
| `HttpParser.RejectedLeaves` | muduo-cpp11/net/http/http_server.cpp:27-57 | a rejected line never sets a version, and sets path and query only if it has a known method and a target |
| `HttpParser.ParseFailsIff` | muduo-cpp11/net/http/http_server.cpp:61-99 | a call in the request-line state fails exactly if its first complete line is not such a line |
| `HttpParser.HeadersEndIff` | muduo-cpp11/net/http/http_server.cpp:79-93 | the header block ends at exactly the lines without a colon |
| `HttpParser.ParseLine` | muduo-cpp11/net/http/http_server.cpp:65-93 | what a line may do: go on to headers, finish unchanged, or be rejected, and only as a request line |
| `HttpParser.HttpRequest.AddHeaderLine` | muduo-cpp11/net/http/http_request.h:128-139 | the two trimming loops store the trimmed value |
| `HttpParser.HttpRequest.Swap` | muduo-cpp11/net/http/http_request.h:154-161 | exchanges everything except the version |
| `HttpParser.HttpContext.Reset` | muduo-cpp11/net/http/http_context.h:60-64 | a new request that keeps the old version |
| `HttpParser.HttpContext.ProcessRequestLine` | muduo-cpp11/net/http/http_server.cpp:27-57 | result and request as the parser function gives them, also for rejected lines |
| `HttpParser.ProcessLine` | muduo-cpp11/net/http/http_server.cpp:65-93 | one complete line acts as the parser function says |
| `HttpParser.ParseNextLine` | muduo-cpp11/net/http/http_server.cpp:64-97 | one turn of the loop; a continuing turn consumes at least two bytes |
| `HttpParser.ParseRequest` | muduo-cpp11/net/http/http_server.cpp:61-99 | the loop ends, and result, context and buffer content are those of the parser function |
| `ThreadPools.NotifyOneSuffices` | muduo-cpp11/base/thread_pool.cpp:66-101 | in every run, while running, a worker waits un-notified only if at least as many are awake as tasks are queued, and a producer only if at least as many are awake as slots are free |
| `ThreadPools.WorkIsSeen` | muduo-cpp11/base/thread_pool.cpp:66-101 | with a task queued, not all workers of the pool wait un-notified |
| `ThreadPools.BoundedFifo` | muduo-cpp11/base/thread_pool.cpp:66-105 | in every run the queue stays within its bound, and tasks taken, then queued, equal tasks submitted in order |
| `ThreadPools.StopReleasesWorkers` | muduo-cpp11/base/thread_pool.cpp:54-64 | after `Stop` no worker waits un-notified, ever |
| `ThreadPools.CallsEndByOwnStep` | muduo-cpp11/base/thread_pool.cpp:66-101 | a thread inside `Run` or `Take` leaves it only by its own step, and keeps its task until then |
| `ThreadPools.GiveDoes` | muduo-cpp11/base/thread_pool.cpp:75-83 | a producer that gets the lock queues its own task at the end exactly if there is room, and waits with it if not |
| `ThreadPools.TakeDoes` | muduo-cpp11/base/thread_pool.cpp:86-101 | a worker that gets the lock takes the front task if there is one, also after `Stop`; without one it waits exactly while the pool runs |
| `ThreadPools.StopStrandsProducer` | muduo-cpp11/base/thread_pool.cpp:54-117 | after a run in which a worker takes a task, a producer blocks, `Stop` comes and the worker leaves its loop, that producer stays blocked in every continuation |
| `ThreadPools.ProducerReleasedIff` | muduo-cpp11/base/thread_pool.cpp:54-117 | in every reachable state in which each worker has left its loop or is itself blocked in `Run`, a blocked producer returns in some continuation if and only if the queue is not full |
| `ThreadPools.SlotsAreFilled` | muduo-cpp11/base/thread_pool.cpp:75-83 | in such a state, while a slot is free some blocked producer is awake and its next step returns |
| `ThreadPools.StuckForever` | muduo-cpp11/base/thread_pool.cpp:75-83 | from such a state with a full queue no continuation lets a blocked producer return |
| `ThreadPools.StepKeepsPlaces` | muduo-cpp11/base/thread_pool.cpp:86-117 | every step keeps each thread in at most one of `Take`, `Run`, its loop test and its end, and only workers in `Take` |
| `ThreadPools.TryGiveKeeps` | muduo-cpp11/base/thread_pool.cpp:75-83 | one pass of `Run` through the monitor keeps the invariant, also when a notified producer has just left the awake set |
| `ThreadPools.TryTakeKeeps` | muduo-cpp11/base/thread_pool.cpp:86-101 | the same for `Take` |
| `ThreadPools.StepKeepsInv` | muduo-cpp11/base/thread_pool.cpp:54-105 | every step, spurious wakeups and `Stop` included, keeps the invariant |
| `ThreadPools.RunKeepsInv` | muduo-cpp11/base/thread_pool.cpp:54-105 | every legal run keeps the invariant |
| `ThreadPools.ThreadPool.RunLocked` | muduo-cpp11/base/thread_pool.cpp:75-83 | waits exactly when full, else appends and notifies one |
| `ThreadPools.ThreadPool.TakeLocked` | muduo-cpp11/base/thread_pool.cpp:86-101 | waits exactly when empty and running, else returns the front task or none |
| `ThreadPools.ThreadPool.StopPool` | muduo-cpp11/base/thread_pool.cpp:54-59 | refines the stop step |
| `ThreadPools.ThreadPool.Perform` | muduo-cpp11/base/thread_pool.cpp:54-117 | every step of the object, which keeps one place per thread, is the step of the model, which keeps sets of waiting and notified threads |
| `ThreadPools.ThreadPool.Schedule` | muduo-cpp11/base/thread_pool.cpp:54-105 | for any schedule of producers and workers the object ends in the state of the run |
| `Connectors.SocketOwnership` | muduo-cpp11/net/connector.cpp:76-130 | in every run each socket created is exactly once held by the live attempt, closed or handed over, and no other socket is, even when one dispatch raises error and write together |
| `Connectors.HandOver` | muduo-cpp11/net/connector.cpp:165-246 | over every run the callback gets exactly the sockets of the attempts that succeeded while not stopped, in order, and the socket of every other attempt that ended is closed, in the order in which they ended |
| `Connectors.PlainSuccess` | muduo-cpp11/net/connector.cpp:192-197 | on the run "start, connect underway, writable without error" the socket is handed over and nothing is closed |
| `Connectors.ConnectFollowsCalls` | muduo-cpp11/net/connector.cpp:51-74 | `connect_` is on exactly if the last of `Start`, `Restart` and `Stop` was not `Stop` |
| `Connectors.StepMoves` | muduo-cpp11/net/connector.cpp:140-203 | the connector is connecting exactly from a start that is underway until it succeeds or fails, and connected exactly from a success to the next restart |
| `Connectors.StepArms` | muduo-cpp11/net/connector.cpp:226-246 | a retry timer is armed exactly by an attempt that fails, or is to be tried later, while not stopped |
| `Connectors.BackoffClosedForm` | muduo-cpp11/net/connector.cpp:226-246 | the k-th consecutive retry waits min(500 * 2^k, 30000) milliseconds |
| `Connectors.AssertionsHold` | muduo-cpp11/net/connector.cpp:56-68 | the assertions of `StartInLoop`, `Connecting` and `HandleWrite` hold in every run, and at most one retry timer is pending |
| `Connectors.BooksMove` | muduo-cpp11/net/connector.cpp:165-203 | creating, closing or handing over a held socket keeps the ledger balanced |
| `Connectors.StepKeepsControl` | muduo-cpp11/net/connector.cpp:132-203 | every step keeps that the channel is registered exactly while connecting, and that a dropped channel has its reset queued |
| `Connectors.StepKeepsDelays` | muduo-cpp11/net/connector.cpp:226-246 | every step keeps the waits and the next delay in closed form |
| `Connectors.StepKeepsLedger` | muduo-cpp11/net/connector.cpp:76-246 | every step keeps the ledger of sockets |
| `Connectors.RunKeepsLedger` | muduo-cpp11/net/connector.cpp:76-246 | every legal run keeps the ledger |
| `Connectors.BackoffNext` | muduo-cpp11/net/connector.cpp:239 | doubling with a cap is the next closed form |
| `Connectors.Connector.Watch` | muduo-cpp11/net/connector.cpp:140-150 | a new channel object on the socket, with write interest, is the registered channel of the model |
| `Connectors.Connector.RemoveAndResetChannel` | muduo-cpp11/net/connector.cpp:152-159 | disabling the channel object unregisters it while the object stays until its queued reset |
| `Connectors.Connector.HandleWrite` | muduo-cpp11/net/connector.cpp:165-203 | refines the write callback |
| `Connectors.Connector.Perform` | muduo-cpp11/net/connector.cpp:51-246 | every step of the object, whose channel is a heap object or null, is the step of the model |
| `Connectors.Connector.Schedule` | muduo-cpp11/net/connector.cpp:51-246 | for any schedule of calls, answers, timers and functors the object ends in the state of the run |
| `Text.FindCrlfMeaning` | muduo-cpp11/net/buffer.h:78-81 | the search finds the first CR LF, or there is none |
| `Text.FindCrlfStable` | muduo-cpp11/net/buffer.h:78-81 | appending bytes never moves a CR LF already found |
| `Text.FindMeaning` | muduo-cpp11/net/http/http_server.cpp:30 | the search finds the first occurrence of a character |
| `Text.SpacesAre` | muduo-cpp11/net/http/http_request.h:131 | white space is the space and the codes 9 to 13 |
| `Text.TrimLeftOf` | muduo-cpp11/net/http/http_request.h:131-133 | leading white space is removed and nothing else |
| `Text.TrimRightOf` | muduo-cpp11/net/http/http_request.h:135-137 | trailing white space is removed and nothing else |

## Left out

- The state check and set of `Shutdown`, `ForceClose` and `Send` is one atomic step, as the comments at tcp_connection.cpp:187 and 229 intend; the race between check and set is not modelled. `ForceCloseWithDelay` is a timer followed by `ForceClose`.
- Lifecycle.ConnectionLifecycle: accepts no connection past the name limit or the range of the counter, whose exact bounds are `NamesDistinctIff` and `NamesDistinctInRangeIff`; says nothing about a run after a dispatch that closes twice, where an assertion of the source has failed; a close is one step, because user callbacks act through separate events. The server outlives its connections.
- Destructors of `TcpServer`, `TcpClient`, `EventLoopThread`, `TimerQueue` and `Connector`: their own comments call them unsafe.
- `shared_ptr` and `weak_ptr` reference counts and `Channel::Tie`; that a connection object lives until its `ConnectDestroyed` has run is the guarantee of the references in the map and in the functor.
- OutputPath.HighWatermarkExactly: the callbacks are taken to be set; without one nothing is queued.
- `Connector`: one `Start`; `Restart` only from the connected state; retry timers and `Restart` come after the queued `ResetChannel` of the previous attempt. `Stop` may be called any number of times.
- `EventLoop`: one call of `Loop`; a `Quit` before it is overwritten as in the source and not examined further; the immediate call in `RunInLoop` is the caller's own code.
- `TimerQueue`: intervals are whole microseconds and there is one consistent clock; a failing timerfd call is not modelled; cancelling a timer whose add is still on its way to the loop is not promised by the code and has no effect in the model. `std::set` is a sorted sequence with insert, erase and lower bound as library operations.
- `EPollPoller::FillActiveChannels` and the `Poll` calls themselves; `Poller` selection.
- PollerAgreement.AgreementIff: a channel removed from `PollPoller` keeps its index and cannot be registered again, so a later update of the same descriptor comes from a new channel object.
- `ThreadPool` with no threads, which runs tasks in the caller; joining threads in `Stop`; `Run`'s unlocked test of `running_`, so a producer may enter at any time; the thread initialisation callback.
- Buffer integer codecs, `FindEOL`, `RetrieveUntil`, `swap` and `InternalCapacity`: easier than what is here.
- ByteBuffer.SpaceBound: counts in a run that shrinks an initial size of at least 1024, because `Shrink` passes through a default buffer; the growth policy of `std::vector` behind its size is not modelled.
- HTTP bodies, pipelining, receive times and responses; `ParseRequest` in the body or complete state, where its loop does not end. Header blocks end at any line without a colon, as in the code, which is laxer than section 5 of RFC 9112.
- Machine integer widths, except the eventfd counter and the connection id: sizes, times and sequence numbers are unbounded.
- Socket, address and descriptor wrappers, the acceptor, loop selection, logging, and the macOS and Android branches.
- The C++ memory model: steps are atomic and sequentially consistent.
