# TcFrame: a verified model of its reactor core

TcFrame is a C++ reactor framework for TCP servers. This project models the parts of it where several
threads, timers, buffers and callbacks meet, and proves what they keep over every run.

| files | part of the system |
|---|---|
| `TimerQueue.dfy`, `EventLoop.dfy` | timers of `EventLoop`: the heap with lazy deletion, its side map, the batch of due tasks |
| `LoopMachine.dfy`, `LoopRuns.dfy`, `LoopLaws.dfy` | `EventLoop` under concurrency: poll timeout, functor queue, wakeup fd, quit flag |
| `Connection.dfy`, `ConnectionRuns.dfy`, `ConnectionLaws.dfy`, `TcpConnection.dfy` | `TcpConnection` with its `Channel` |
| `Server.dfy`, `ServerInvariant.dfy`, `ServerRuns.dfy`, `ServerLaws.dfy`, `TcpServer.dfy` | `TcpServer`: connection table, fd reuse, graceful stop |
| `ConnectionLife.dfy` | the connection as `TcpConnection` runs it against the connection as `TcpServer` sees it |
| `Bytes.dfy`, `Buffer.dfy`, `Codec.dfy` | `Buffer` and `LengthFieldCodec` |
| `Poller.dfy` | `WSPollPoller` against `EpollPoller` |
| `Echo.dfy` | the echo server of `main.cpp`, end to end |

How it is built. What the C++ code updates in place is a class or an array whose methods are proved
against functions on plain values (`View() == ...`, `Contents() == ...`). Concurrency is a step machine
over those values: each locked section, each wakeup write, each check-and-set of `m_state`, each
functor and each handler is one step, steps of all threads interleave freely, and a step whose guard
does not hold changes nothing. Where a handler of a connection tests the state and then goes on
regardless, the calls of other threads that land in between are part of the step (`meanwhile`). The
loops of `FinalizeGracefulStop` and the parts of `Socket::Close` are separate steps. The main theorems speak of `Run(start, steps)` for every `steps`. The
fields marked as history record what happened and are not read by the operations. The `...Laws` files
say what single steps come to without naming the functions that compute them, and read what should have
happened off the steps of the run themselves.

## What the code does not do

Some things that its documentation or a reader might expect are false of the code. For each there is
the exact condition under which it holds, and a run that shows how it fails.

- A graceful stop is documented to let queued output drain (line 113 of the repository's own README).
  It does not: `HandleWrite` refuses to write unless the state is Connected, so `Shutdown` delivers the
  queued bytes if and only if there are none (`ShutdownFlushesIffNothingQueued`). The one way out is a
  `Shutdown` by another thread that lands inside `HandleWrite`, past its guard, if that very write takes
  all bytes (`ShutdownInsideWrite`).
- A functor that has just been queued can be slept on without a wakeup if and only if the loop's own
  thread queued it, from a timer callback or outside `Loop`, with no wakeup written or about to be. The
  poll then lasts up to ten seconds (`SleptOnIff`, `NoLostWakeup`, `BothCasesArise`).
- A removal functor erases another connection's table entry if and only if it runs after the kernel has
  closed the fd, before `m_sockfd` is invalid, with the fd accepted again in between
  (`RemovalErasesForeignIff`, `LateRemovalErasesForeignEntry`).
- Write interest follows the output buffer if and only if nobody sends an empty message on an idle
  connection; such a message gets the connection closed (`WriteInterestIffQueued`,
  `EmptySendClosesIdleConnection`).
- A Disconnected connection stays unregistered if and only if no queued `ShutdownInLoop` finds unsent
  bytes after the close, and no high-water callback force-closes under `SendInLoop`
  (`DisconnectedUnregisteredIff`, `StaleShutdownReregisters`, `CallbackCloseReregisters`).
- The deadline of a graceful stop is met in every interleaving if and only if no connection in the
  table is still Connecting when `StopGracefully` is called (`StopMeetsDeadlineIff`). Otherwise, and
  only then, the stop can get stuck for good: `ForceCloseInLoop` closes the socket before the close
  callback, so the removal finds no entry to erase (`StopCanGetStuckIff`, `StuckForever`).
- `IsAdded` is poller membership if and only if no channel withdraws an fd whose entry belongs to
  another one (`AddedIffRegistered`, `SharedFdBreaksIsAdded`).
- On Linux `ReadFromFd` has no early return for a failed `readv`; the 64 KiB side buffer is then
  over-read, and only then (`SideBufferIsSafeIffReadSucceeded`).

## Model

| member | source | states |
|---|---|---|
| LoopRuns.NoTimerSleptPast | src/eventloop.cpp:199-204 | In every reachable state, from computing the timeout to the end of the poll: the wake time is no later than every live expiry, or the poll does not block, or a wakeup is on the fd, or a thread that added a timer is about to write one. Timers may be added from any thread, before Loop too. |
| LoopRuns.NoLostWakeup | src/eventloop.cpp:258-293 | Blocking with pending functors and no wakeup written or on its way happens only with functors that the loop's own thread queued from a timer callback since the last poll, or outside Loop with no poll since, and that poll is limited to ten seconds. |
| LoopRuns.SleptOnIff | src/eventloop.cpp:258-272 | For a functor just queued, by any thread in any state: some continuation polls with it pending and no wakeup written or on its way, iff the loop's own thread queued it outside Loop or in any timer callback, and no wakeup was around. |
| LoopRuns.BothCasesArise | src/eventloop.cpp:193-216 | Both cases happen in runs from the initial state. |
| LoopRuns.FifoExactlyOnce | src/eventloop.cpp:258-387 | Executed functors, the rest of the swapped-out vector and the queue always make up the history of pushes in order, and no functor waits for more than one poll. |
| LoopRuns.QuitNotLost | src/eventloop.cpp:221-230 | A loop that polls although a quit has been requested since Loop began has a wakeup on the fd or one about to be written. |
| LoopLaws.QuitEndsLoop | src/eventloop.cpp:199-230 | After a Quit no further poll begins until Loop is called again, except one whose timeout was about to be computed. |
| LoopLaws.TokenCountsWakeups | src/eventloop.cpp:274-367 | The wakeup fd holds the writes since it was last read empty. |
| LoopLaws.WakeupIsSeen | src/eventloop.cpp:326-367 | A poll that ends with the fd written to gets to read it empty. |
| LoopLaws.CallersWake | src/eventloop.cpp:258-272 | Which calls, by which thread and in which phase, go on to write a wakeup. |
| LoopLaws.TimeoutIsLongestSafeSleep | src/eventloop.cpp:527-560 | The poll timeout is the longest sleep of at most ten seconds that no live timer is slept past in, or 0. |
| LoopRuns.TimerBookkeeping | src/eventloop.cpp:399-525 | Every id in m_timers sits exactly once in heap, batch or the loop's hands, nothing sits twice, and what sits there is cancelled iff its id has left m_timers; for all interleavings, with callbacks that add and cancel. |
| LoopRuns.OneShotAtMostOnce | src/eventloop.cpp:502-524 | The callback of a RunAt or RunAfter timer starts at most once in any run. |
| LoopRuns.TimerTiming | src/eventloop.cpp:423-525 | No callback starts early, a batch starts them by expiry, and the k-th start of a RunEvery timer is at least k intervals (of at least 1 ms) after the call. |
| LoopLaws.PeriodicTiming | src/eventloop.cpp:423-451 | In every run, with any thread making the call: the k-th start of a timer made by RunEvery is at or after the clock reading of that call plus k times max(1, interval) milliseconds. |
| LoopLaws.OneShotTiming | src/eventloop.cpp:399-421 | A timer made by RunAt never starts before its time. |
| LoopLaws.NewTimerIsQueued | src/eventloop.cpp:399-451 | A new timer is in the map and once in the queue under a new id, with the expiry and period that the call says; nothing else changes. |
| LoopLaws.StartsAreLogged | src/eventloop.cpp:502-507 | The log that these laws speak of has exactly the calls of callbacks, with the clock at the call. |
| LoopLaws.TestBeforeCall | src/eventloop.cpp:502-505 | A task of the batch is called iff it has a callback and is not cancelled when its turn comes. |
| LoopLaws.PeriodicGoesOn | src/eventloop.cpp:509-517 | Over every run a periodic timer in the map stays there, and in queue, batch or hand, until a Cancel of it. |
| LoopLaws.EndOfTurn | src/eventloop.cpp:509-523 | When its turn ends a live periodic timer is in the queue once, due one period after that; a one-shot or cancelled one is gone from queue and map. |
| LoopLaws.LiveTimerCanStart | src/eventloop.cpp:193-219 | From every reachable state some continuation starts a live timer with a callback, if it is periodic or has not started yet. |
| LoopRuns.CancelIsFinal | src/eventloop.cpp:453-525 | After a Cancel that returns true on the loop thread the callback never starts again; after one on another thread at most once more, and only if the loop had already tested the flag. |
| LoopRuns.StartsAfterCancelIff | src/eventloop.cpp:502-507 | After a Cancel the callback starts in some continuation iff the loop had tested the flag and not yet made the call. |
| LoopRuns.CancelledRun | src/eventloop.cpp:453-525 | Over any run a cancelled task gains no start but the one that was already imminent. |
| LoopRuns.ReachableInv | src/eventloop.cpp:193-560 | The joint invariant of timers, functor queue, phases and wakeups holds in every reachable state. |
| LoopMachine.NextKeepsInv | src/eventloop.cpp:193-560 | Every step of every thread keeps that invariant. |
| LoopMachine.PollCovers | src/eventloop.cpp:527-560 | The timeout just computed ends the poll no later than any live timer is due. |
| LoopMachine.CoverKept | src/eventloop.cpp:399-475 | While the loop polls, nothing but an addition can put a live timer before the chosen wake time. |
| LoopMachine.WakeKept | src/eventloop.cpp:274-367 | A wakeup, written or promised, survives every step except the drain in the event phase. |
| LoopMachine.QueueKept | src/eventloop.cpp:258-387 | Order of functors, and for each pending one where the loop may be and which wakeup it has, are kept by every step. |
| TimerQueue.AddKeepsInv | src/eventloop.cpp:399-451 | Adding a task keeps placement, one-shot, timing and ordering facts; its id is new. |
| TimerQueue.CancelKeepsInv | src/eventloop.cpp:453-475 | So does cancelling, from any thread and at any point of a batch. |
| TimerQueue.PurgeKeepsInv | src/eventloop.cpp:532-540 | So does purging dead heap entries, and the set of live timers stays the same. |
| TimerQueue.BatchKeepsInv | src/eventloop.cpp:483-500 | So does moving the due live timers into a batch. |
| TimerQueue.FetchKeepsInv | src/eventloop.cpp:502-504 | So does fetching the next task of the batch. |
| TimerQueue.StartKeepsInv | src/eventloop.cpp:504-507 | So does starting its callback; the start is not early and comes in expiry order. |
| TimerQueue.FinishKeepsInv | src/eventloop.cpp:509-523 | So does re-queueing a live periodic task with its new expiry, or retiring a one-shot. |
| EventLoops.EventLoop.GetPollTimeoutMs | src/eventloop.cpp:527-560 | The lazily deleted heap gives exactly min(10000, max(0, floor of earliest live expiry minus now in ms)), or 10000 if no timer is live, which is the longest safe sleep; only dead entries leave the heap. |
| EventLoops.EventLoop.PurgeAndPeek | src/eventloop.cpp:532-559 | The purging loop terminates, drops dead entries only and returns that timeout, for any choice among equal minima. |
| EventLoops.TimeoutFromTop | src/eventloop.cpp:534-556 | A live top of the purged heap determines the timeout of the plain set of live timers. |
| EventLoops.EventLoop.PopDue | src/eventloop.cpp:487-499 | What the popping loop has taken off is due, and `ready` is its live part in expiry order. |
| EventLoops.EventLoop.CollectDue | src/eventloop.cpp:483-500 | The batch is exactly the live timers due at the clock reading, each once, by expiry; the heap keeps exactly the entries not due. |
| EventLoops.EventLoop.ProcessDelayedTasks | src/eventloop.cpp:477-525 | Whatever the callbacks add or cancel: the batch is worked off turn by turn, each of its timers starts, once, iff at its turn it has a callback and is not cancelled, nothing else starts, and the bookkeeping invariant holds. |
| EventLoops.EventLoop.RunBatch | src/eventloop.cpp:502-524 | The same for the loop over the batch alone, with every intermediate state. |
| EventLoops.EventLoop.RunOneTask | src/eventloop.cpp:502-524 | One turn is fetch, call unless cancelled or empty, put away; with the exact new timer state, including what the callback's own calls did at clock readings within the turn. |
| EventLoops.TaskTurn | src/eventloop.cpp:502-524 | A turn starts the fetched task iff it is neither cancelled nor empty, forgets no task and un-cancels none. |
| EventLoops.EventLoop.FinishTask | src/eventloop.cpp:509-523 | A live periodic task is in the queue once, due one interval after now; a cancelled one is dropped, a one-shot leaves the map. |
| EventLoops.EventLoop.RunAt | src/eventloop.cpp:399-421 | A new one-shot due at the given time, in map and queue under a new id; nothing else changed. |
| EventLoops.EventLoop.RunAfter | src/eventloop.cpp:389-397 | A negative delay counts as zero. |
| EventLoops.EventLoop.RunEvery | src/eventloop.cpp:423-451 | A periodic task in map and queue under a new id, made at the clock reading and first due max(1, interval) milliseconds later; nothing else changed. |
| EventLoops.EventLoop.Cancel | src/eventloop.cpp:453-475 | True iff the id was in the map; then the task is marked and its id removed. |
| ServerRuns.StopMeetsDeadlineIff | src/tcpserver.cpp:125-190 | In every interleaving the stop is complete once the deadline callback has returned, if and only if nobody in the table is Connecting when the stop begins. |
| ServerRuns.StopCompleteAtDeadline | src/tcpserver.cpp:422-504 | In such a session the deadline timer is live whenever the main thread is free, and its callback, whatever happens while it runs, returns with an empty table, both flags false, all timer ids zero and no timer live. |
| ServerRuns.StopEndsWithLastEntry | src/tcpserver.cpp:170-184 | Past the walk a server that is still stopping and free never has an empty table, so the step that removes the last entry goes on to end the stop; the check timer is live throughout and never finds anything to do. |
| ServerRuns.RunPastDeadline | src/tcpserver.cpp:161-190 | With one Connecting entry there is a run through the walk, the establishment and the whole deadline callback that leaves the entry in the table. |
| ServerRuns.LateBirth | src/tcpconnection.cpp:225-238 | A connection established after the walk is connected when the deadline comes. |
| ServerRuns.TableOnlyShrinks | src/tcpserver.cpp:206-214 | While stopping, no step adds or changes a table entry. |
| ServerRuns.CompletionCallbackOnce | src/tcpserver.cpp:145-154 | A session that is over has fired exactly the last registered callback, once; one that is not over has fired none. |
| ServerLaws.RequestHistory | src/tcpserver.cpp:125-152 | In every run the requests to stop made by any thread are exactly the registrations, the refused requests and those still queued. |
| ServerLaws.RequestsInOrder | src/tcpserver.cpp:127-133 | Requests of other threads are handled in the order in which they were made, each once and with its callback. |
| ServerLaws.HandledStop | src/tcpserver.cpp:135-154 | A request that the main thread gets to is registered, and begins a stop if there is none; it is refused iff the server is not started, or a stop is under way and there is no callback. |
| ServerLaws.LastRequestFires | src/tcpserver.cpp:498-503 | A request with a callback, by any thread, that the started server gets to and that is the last of its session has its callback fired once when the session is over, and not before. |
| ServerRuns.StopCanGetStuckIff | src/tcpserver.cpp:456-471 | Some continuation of a stop gets stuck for good iff an entry is Connecting when it is called. |
| ServerRuns.ForceCloseStrandsEntry | src/tcpconnection.cpp:270-285 | After the missed deadline the forced close leads to an entry whose socket is closed, with no deadline ahead. |
| ServerRuns.StuckForever | src/tcpserver.cpp:244-272 | From there the stop stays incomplete in every continuation. |
| ServerRuns.RemovalErasesForeignIff | src/tcpserver.cpp:244-257 | Under fd reuse a removal, however late, erases at most the entry under the fd it reads: its own connection's if m_sockfd is still valid; another's iff it runs between the kernel's close and the invalidation with the fd accepted again; nothing with an invalid fd. |
| ServerRuns.LateRemovalErasesForeignEntry | src/socket.cpp:262-270 | The run that does it, from Start and for every fd: the second connection ends up connected and without an entry. |
| ServerRuns.ConnectionAccounting | src/tcpserver.cpp:206-272 | Accepted = closed + active + overwritten by fd reuse + swept by a stop, in every reachable state. |
| ServerLaws.CountersCount | src/tcpserver.cpp:220-257 | Each counter counts its own events: accepts, removals that found an entry, entries lost to fd reuse, entries swept. |
| ServerLaws.AcceptRegisters | src/tcpserver.cpp:206-238 | A new connection is registered under its fd with its establishment queued; while stopping nothing changes. |
| ServerLaws.CloseQueuesRemoval | src/tcpconnection.cpp:205-211 | A close by the peer queues the removal before the socket is closed, a forced close after it. |
| ServerLaws.RemovalDestroys | src/tcpserver.cpp:251-263 | A removal that finds an entry takes it out and queues ConnectDestroyed for its connection, and nothing else. |
| ServerLaws.PeerCloseLeavesTable | src/tcpserver.cpp:244-257 | An open connection closed by its peer is out of the table and counted once the main loop has run the removal. |
| ServerLaws.CallsReachConnections | src/tcpserver.cpp:161-168 | What the walk, the idle scan, the deadline and user calls queue on a connection of another loop. |
| ServerLaws.StartArms | src/tcpserver.cpp:99-123 | Start sets the flag and arms the configured scans; a second one does nothing. |
| ServerInvariant.NextEvolves | src/tcpserver.cpp:206-272 | Every step keeps the table invariant; every step but an accept only shrinks the table and only moves connections forward. |
| ServerInvariant.NextBalanced | src/tcpserver.cpp:206-272 | Every step keeps the account balanced. |
| ServerInvariant.NextTimers | src/tcpserver.cpp:176-189 | Every step keeps the stored timer ids in line with the live timers and the flags. |
| ServerInvariant.NextArmed | src/tcpserver.cpp:186-189 | Every step keeps the deadline timer of a clean session live until the stop is being finished. |
| ServerInvariant.NextSwept | src/tcpserver.cpp:430-446 | In a clean session the sweep takes away every entry that it looks at, whatever other threads do between two turns. |
| ServerInvariant.NextClean | src/tcpserver.cpp:161-168 | In a clean session no entry that the walk has passed is or becomes Connected. |
| ServerInvariant.CleanFinalize | src/tcpserver.cpp:473-503 | So the end of FinalizeGracefulStop completes it. |
| ServerInvariant.NextSession | src/tcpserver.cpp:145-154 | Every step keeps the record of fired callbacks equal to what the registrations call for. |
| ServerInvariant.NextKeepsInv | src/tcpserver.cpp:99-504 | Every step of the main loop, the sub loops and other threads keeps the whole server invariant. |
| ServerInvariant.RunKeepsInv | src/tcpserver.cpp:99-504 | So does every run. |
| TcpServers.TcpServer.HandleNewConnection | src/tcpserver.cpp:206-242 | The new table state, and the refusal while stopping. |
| TcpServers.TcpServer.Start | src/tcpserver.cpp:99-123 | The machine's start, on the fields. |
| TcpServers.TcpServer.HandleRemoveConnection | src/tcpserver.cpp:244-246 | The close callback only queues the removal. |
| TcpServers.TcpServer.StopFromOtherThread | src/tcpserver.cpp:127-133 | A stop by another thread only queues the request, with its callback. |
| TcpServers.TcpServer.RemoveConnection | src/tcpserver.cpp:246-271 | The removal functor takes the machine's step, and nothing more unless the table becomes empty during a stop, when it goes on through the finish. |
| TcpServers.TcpServer.StopGracefully | src/tcpserver.cpp:125-190 | Only the main thread steps: it is the machine's stop call, and then the walk and its end if a stop begins; it hands back the callback to be called at once, if any. |
| TcpServers.TcpServer.ShutdownEach | src/tcpserver.cpp:161-168 | One step per entry, in any order: each connection in the table gets one Shutdown, no other changes. |
| TcpServers.TcpServer.FinalizeGracefulStop | src/tcpserver.cpp:422-504 | Only the main thread steps, through the three loops: exactly the connected entries stay, the stop goes on iff it is forced and some are left, and the callback is handed out iff it is over. |
| TcpServers.TcpServer.FinishStop | src/tcpserver.cpp:473-503 | All four timers cancelled and ids zeroed, flags reset, the stored callback taken. |
| TcpServers.TcpServer.SweepStale | src/tcpserver.cpp:430-446 | The iterate-and-erase loop keeps exactly the connected entries and collects exactly the others, and is a run of sweep steps. |
| TcpServers.TcpServer.DestroyEach | src/tcpserver.cpp:448-454 | Each stale connection gets one destroy functor, no other changes. |
| TcpServers.TcpServer.ForceCloseEach | src/tcpserver.cpp:459-466 | One step per entry, in any order: each connection in the table gets one forced close, no other changes. |
| ConnectionRuns.Lifecycle | src/tcpconnection.cpp:65-285 | Over any interleaving the state never moves back, Disconnected is absorbing, and the close callback runs at most once. |
| ConnectionRuns.EstablishedOnce | src/tcpconnection.cpp:65-69 | ConnectEstablished only ever runs on a Connecting connection, as it asserts. |
| ConnectionRuns.ErrorEventClosesOnce | src/channel.cpp:78-91 | POLLERR runs the error and the close handler, and closes once, whatever other bits are set. |
| ConnectionLaws.HangupCloses | src/channel.cpp:93-102 | A hang-up closes once, with nothing read or written, whatever other bits are set. |
| ConnectionLaws.ReadBeforeWrite | src/channel.cpp:104-120 | What the message callback sends in an event is written in the same event if the kernel has room. |
| ConnectionLaws.WriteAlone | src/channel.cpp:113-120 | A writable event alone writes and reads nothing. |
| ConnectionLaws.CloseIsTold | src/tcpconnection.cpp:183-285 | Whoever closes, the close callback is made with it, unless the server asked for the close itself. |
| ConnectionLaws.ShutdownOnLoop | src/tcpconnection.cpp:225-258 | Shutdown on the loop thread closes at once if nothing is queued, and asks for writing otherwise. |
| ConnectionLaws.ForceCloseOnLoop | src/tcpconnection.cpp:260-285 | ForceClose on the loop thread closes whatever is queued. |
| ConnectionLaws.FunctorsDo | src/tcpconnection.cpp:65-95 | What each queued functor does when the loop gets to it. |
| ConnectionLaws.RemoteCallsQueue | src/tcpconnection.cpp:225-305 | A call of another thread queues its functor behind the others, if the state lets it. |
| ConnectionLaws.FunctorsInOrder | src/eventloop.cpp:369-387 | Functors run in the order in which they were queued, and a queued send is accepted behind what was accepted before. |
| ConnectionLaws.NestedSendAppends | src/tcpconnection.cpp:332-345 | A send made inside the high-water callback is accepted like any other. |
| ConnectionRuns.OutputConservation | src/tcpconnection.cpp:130-213 | Accepted = written ++ queued; both counters agree; m_pending_write_bytes is the queue length until Disconnected, then 0. |
| ConnectionLaws.WrittenIsTaken | src/tcpconnection.cpp:140-146 | In every run the written bytes are exactly those that the kernel took according to the outcomes of the writes, in order. |
| ConnectionLaws.WriteTakesWhatItSays | src/buffer.cpp:250-262 | A write that the kernel takes n bytes of takes exactly the first n off the queue and counts them; write interest stays iff bytes are left. |
| ConnectionLaws.OtherWrites | src/tcpconnection.cpp:172-180 | Would-block leaves the queue; a failure or a write of nothing closes. |
| ConnectionLaws.ReceivedIsGiven | src/tcpconnection.cpp:97-112 | In every run the received bytes are exactly those that reads delivered while the connection was reading. |
| ConnectionLaws.ReadDoesWhatItSays | src/tcpconnection.cpp:97-128 | A read appends and counts what came in; exactly end of stream and a failed read close. |
| ConnectionRuns.OutputFrozen | src/tcpconnection.cpp:130-137 | Once the state has left Connected and the handler in progress, if any, has returned, nothing more is accepted, written or dropped. |
| ConnectionRuns.ShutdownFlushesIffNothingQueued | src/tcpconnection.cpp:225-258 | After Shutdown from either side some continuation delivers all accepted bytes iff none are queued. |
| ConnectionRuns.ShutdownInsideWrite | src/tcpconnection.cpp:130-157 | A Shutdown or ForceClose of another thread inside HandleWrite: the bytes are delivered iff that write takes them all, and then the drained branch closes at once. |
| ConnectionRuns.ShutdownInsideSendLosesIt | src/tcpconnection.cpp:335-345 | One inside SendInLoop leaves a message accepted that no continuation delivers, whatever the high-water callback does. |
| ConnectionRuns.WriteInterestIffQueued | src/tcpconnection.cpp:332-358 | Throughout a run, write interest while Connected is on exactly while bytes are queued, iff no empty message is sent on an idle connection. |
| ConnectionRuns.NoZeroByteWrite | src/buffer.cpp:225-231 | Without such sends a writable event never finds the buffer empty. |
| ConnectionRuns.EmptySendClosesIdleConnection | src/tcpconnection.cpp:172-178 | With one, the next writable event closes the connection. |
| ConnectionRuns.DisconnectedUnregisteredIff | src/tcpconnection.cpp:240-258 | Throughout a run Disconnected means no interest and no registration, iff neither re-arming step happens. |
| ConnectionRuns.GentleCallersSuffice | src/tcpconnection.cpp:225-268 | It holds in every run in which no other thread calls Shutdown and no high-water callback calls ForceClose. |
| ConnectionRuns.StaleShutdownReregisters | src/tcpconnection.cpp:243-249 | A failing run: remote Shutdown with queued bytes, peer hang-up, then the queued functor. |
| ConnectionRuns.CallbackCloseReregisters | src/tcpconnection.cpp:347-355 | Another: a high-water callback that force-closes under the send that made it. |
| ConnectionRuns.HighWaterCallsAreCrossings | src/tcpconnection.cpp:342-350 | If a high-water callback is set, its calls and the upward crossings of the mark correspond one to one, with callbacks that send, shut down or force-close; otherwise there are none. |
| ConnectionRuns.SilentUntilDrained | src/tcpconnection.cpp:342-350 | From a full queue no further callback before a write has brought it below the mark. |
| Connections.ActKeepsInv | src/tcpconnection.cpp:65-358 | Every step keeps the connection invariant and never moves the state back. |
| Connections.CallbackKeeps | src/tcpconnection.cpp:347-350 | Whatever the high-water callback calls, the invariant holds inside it, and it closes iff it force-closes. |
| Connections.NestedSendDoesNotCross | src/tcpconnection.cpp:347-350 | A send from inside the high-water callback never crosses the mark again. |
| Connections.SendKeepsInv | src/tcpconnection.cpp:332-358 | What a send leaves behind, with and without a crossing, and with other threads in between. |
| Connections.RemoteKeeps | src/tcpconnection.cpp:225-268 | Calls of other threads only queue functors and may end Connected; they keep the invariant. |
| TcpConnections.TcpConnection.ConnectEstablished | src/tcpconnection.cpp:65-77 | The object takes the machine's step; the same holds for the rows below. |
| TcpConnections.TcpConnection.ConnectDestroyed | src/tcpconnection.cpp:79-95 | Closes an open connection without the close callback. |
| TcpConnections.TcpConnection.HandleRead | src/tcpconnection.cpp:97-128 | Bytes go into the input buffer, end of stream and errors close, would-block does nothing. |
| TcpConnections.TcpConnection.HandleWrite | src/tcpconnection.cpp:130-181 | A partial write moves a prefix of the queue to the kernel; draining switches write interest off, and closes if another thread has made the state Disconnecting meanwhile; a failed or zero-byte write closes. |
| TcpConnections.TcpConnection.HandleClose | src/tcpconnection.cpp:183-213 | Closes once and makes the close callback. |
| TcpConnections.TcpConnection.Shutdown | src/tcpconnection.cpp:225-238 | Inline on the loop thread, queued otherwise. |
| TcpConnections.TcpConnection.ShutdownInLoop | src/tcpconnection.cpp:240-258 | Arms writing if bytes are queued, whatever the state, and closes otherwise. |
| TcpConnections.TcpConnection.ForceClose | src/tcpconnection.cpp:260-268 | Inline on the loop thread, queued otherwise; also from Disconnecting. |
| TcpConnections.TcpConnection.ForceCloseInLoop | src/tcpconnection.cpp:270-285 | Closes unless that has happened, with the close callback. |
| TcpConnections.TcpConnection.Send | src/tcpconnection.cpp:287-299 | On the loop thread: refused unless Connected, otherwise inline. |
| TcpConnections.TcpConnection.SendFromOtherThread | src/tcpconnection.cpp:301-304 | On another thread: refused unless Connected, otherwise a queued copy. |
| TcpConnections.TcpConnection.SendInLoop | src/tcpconnection.cpp:332-358 | Appends, makes the callback on a crossing if one is set, and arms writing after whatever the callback and other threads did. |
| TcpConnections.TcpConnection.RunQueued | src/eventloop.cpp:381-384 | The loop runs the connection's next functor. |
| TcpConnections.TcpConnection.HandleEvent | src/channel.cpp:72-121 | Error before hang-up before read before write; read and write handlers both run, with the message callback's calls in between if bytes came in; also for an event whose interest an earlier handler has switched off. |
| TcpConnections.StaleEventsAreHarmless | src/eventloop.cpp:207-210 | A handler that runs for such an event changes nothing. |
| TcpConnections.ReportedWriteIsCurrent | src/eventloop.cpp:207-210 | A reported write interest is still there when the handler runs, or the state has left Connected. |
| ConnectionLife.ConnectionRefinesLife | src/tcpconnection.cpp:65-358 | Every run of a connection is one that the server machine allows its view of it: same state, same functors apart from sends, socket closed or not, and one removal per close callback. |
| ConnectionLife.StepFollows | src/tcpconnection.cpp:65-358 | The same for each step of TcpConnection, the parts of a close taken one by one. |
| ConnectionLife.EffectIsStep | src/tcpserver.cpp:232-272 | What is allowed there are the steps of the server machine. |
| TcpConnections.Channel.DisableAll | src/channel.cpp:66-70 | No interest and no registration left. |
| TcpConnections.CallsKeepWriting | src/channel.cpp:104-120 | Calls made by the message callback cannot switch write interest off without leaving Connected. |
| EchoServer.EndToEnd | main.cpp:76-102 | Whatever the chunking, partial writes, closes and remote calls: written is a prefix of accepted, accepted is the framed replies to a prefix of parse(received), and to all of it while Connected between events. |
| EchoServer.ClientDecodesReplies | main.cpp:76-86 | Decoding the accepted stream gives one answer per answered message and no rest: the letters PONG for PING, the message itself for any other; all are answered while Connected between events. |
| EchoServer.EchoRunKeepsInv | src/length_field_codec.cpp:14-72 | The invariant that ties received, delivered, answered and accepted together holds over every run. |
| EchoServer.DecodeKeepsEchoInv | src/length_field_codec.cpp:14-39 | One turn of OnMessage's loop keeps it, also when another thread has changed the state in the middle of the loop. |
| Codec.LengthFieldCodec.FeedAll | src/length_field_codec.cpp:14-39 | However a stream is cut, appending the pieces and calling OnMessage after each delivers the messages of the whole-stream parser and leaves its remainder; a bad header stops delivery for good. |
| Codec.LengthFieldCodec.OnMessage | src/length_field_codec.cpp:14-39 | Delivered messages, remainder and forced close are those of the reference parser. |
| Codec.LengthFieldCodec.EncodeFrame | src/length_field_codec.cpp:48-56 | The bytes sent, which decode to the message alone if it is deliverable. |
| Codec.FrameRoundTrip | src/length_field_codec.cpp:41-57 | A frame decodes to its message, with any bytes behind it, iff the message is no longer than the limit and shorter than 2^31. |
| Codec.ParseFrames | src/length_field_codec.cpp:14-57 | Parsing undoes framing of any sequence of deliverable messages, with any tail. |
| Codec.ParseExtends | src/length_field_codec.cpp:14-39 | Parsing a stream in two pieces is parsing it whole; after a bad header nothing more is delivered. |
| Codec.ParseIsTheDecode | src/length_field_codec.cpp:14-39 | The parser's result is the only split of a stream into frames of deliverable messages and a tail that starts no frame. |
| Codec.FirstFrameIsFrame | src/length_field_codec.cpp:18-33 | A frame is taken off only if it is exactly what Send would have sent. |
| Bytes.HeaderRoundTrip | src/buffer.cpp:270-283 | PeekInt32 reads back what AppendInt32 wrote, over the whole int32_t range. |
| Bytes.NetworkOrder | src/buffer.cpp:278-283 | The bytes of smaller values come first, byte by byte from the front. |
| Bytes.HeaderIsCanonical | src/buffer.cpp:270-276 | Every four bytes are the header of exactly one value. |
| Buffers.Buffer.constructor | src/buffer.cpp:10-15 | Empty queue, the given size. |
| Buffers.Buffer.Retrieve | src/buffer.cpp:42-46 | Drops the first bytes of the queue. |
| Buffers.Buffer.RetrieveAll | src/buffer.cpp:54-58 | Empties the queue. |
| Buffers.Buffer.RetrieveAsString | src/buffer.cpp:60-66 | Takes the first bytes off the queue. |
| Buffers.Buffer.MakeSpace | src/buffer.cpp:89-105 | Compacts or grows, keeps the queue, makes the room, and keeps the array within max(initial size, 2 * largest queue). |
| Buffers.Buffer.CopyDown | src/buffer.cpp:95-95 | The overlapping copy to the front moves the right bytes. |
| Buffers.Buffer.EnsureWritableBytes | src/buffer.cpp:73-81 | The room is there and the queue unchanged. |
| Buffers.Buffer.HasWritten | src/buffer.cpp:83-87 | Bytes behind the write index join the queue. |
| Buffers.Buffer.Append | src/buffer.cpp:107-112 | Adds at the end of the queue, within the memory bound. |
| Buffers.Buffer.Prepend | src/buffer.cpp:124-130 | Adds in front of the queue, without touching it. |
| Buffers.Buffer.ReadFromFd | src/buffer.cpp:164-223 | The scattered bytes join the queue in order and the side buffer is not read beyond its 64 KiB; a failed read returns -1 and leaves the queue alone, as on Windows. |
| Buffers.Buffer.WriteToFd | src/buffer.cpp:225-263 | What the kernel took is a prefix of the queue and leaves it; an empty queue writes nothing. |
| Buffers.Buffer.PeekInt32 | src/buffer.cpp:270-276 | The signed value of the first four bytes in network order. |
| Buffers.Buffer.AppendInt32 | src/buffer.cpp:278-283 | Four bytes in network order at the end of the queue. |
| Buffers.SideBufferIsSafeIffReadSucceeded | src/buffer.cpp:204-221 | In size_t arithmetic, the side buffer is over-read exactly when readv failed. |
| Pollers.Lockstep | src/wspoll_poller.cpp:111-196 | After any sequence of updates and removals both pollers stand for the same map from fd to channel and interest, which is the one that the calls ask for, and have set the same m_added flags. |
| Pollers.ReplayReflects | src/epoll_poller.cpp:112-156 | An fd is registered iff the last call on it is not a withdrawal; its interest is that of this last call, its channel the one of the first call since the last withdrawal. |
| Pollers.SwapRemoveKeepsIndex | src/wspoll_poller.cpp:177-192 | Swap-remove keeps vectors and index map inverse to each other and drops just that fd. |
| Pollers.PushKeepsIndex | src/wspoll_poller.cpp:149-151 | So does adding an entry. |
| Pollers.OverwriteKeepsIndex | src/wspoll_poller.cpp:157-158 | So does replacing one. |
| Pollers.WSPollPoller.UpdateChannel | src/wspoll_poller.cpp:111-161 | The update of the plain map, on the vectors. |
| Pollers.WSPollPoller.RemoveChannel | src/wspoll_poller.cpp:163-196 | The removal from the plain map, on the vectors. |
| Pollers.WSPollPoller.Collect | src/wspoll_poller.cpp:95-106 | A channel is reported iff its fd is registered and ready, once, with the translated events. |
| Pollers.EpollPoller.UpdateChannel | src/epoll_poller.cpp:112-140 | The update of the plain map; map and kernel list keep the same fds. |
| Pollers.EpollPoller.RemoveChannel | src/epoll_poller.cpp:142-156 | The removal from the plain map. |
| Pollers.EpollPoller.Collect | src/epoll_poller.cpp:92-107 | The same report, for the ready fds that the array holds, and for all if it had room; unknown fds are skipped. |
| Pollers.AddedIffRegistered | src/epoll_poller.cpp:112-156 | Throughout any calls of channels with fixed fds, fds used again included, IsAdded is membership iff no channel withdraws an fd whose entry belongs to another. |
| Pollers.OwningStep | src/epoll_poller.cpp:142-156 | One call keeps IsAdded right iff it does not take another channel's entry. |
| Pollers.AddedMeansOwnEntry | src/wspoll_poller.cpp:146-196 | While it is right, a channel is added iff the entry under its fd is its own. |
| Pollers.SharedFdBreaksIsAdded | src/epoll_poller.cpp:142-156 | Two channels on one fd are enough to break that. |

## Left out

- Socket, SocketUtils, Address and Acceptor: only that Close makes the fd invalid and that accept returns an fd no open connection has are kept.
- Logger, log utilities, configuration, metrics export and statistics: every LOG call does nothing here.
- TcpClient and ThreadPool.
- FindCRLF, FindEOL and RetrieveUntil: pointer scans that would only add easy members.
- System calls are inputs: what readv, write, epoll_wait and WSAPoll return, the order in which a map is iterated, the choice among equal heap minima, and a monotone clock.
- Times are integers; the conversion of double seconds to milliseconds, 64-bit overflow of times and counters, and creation of the wakeup pair are not modelled.
- Zero sub loops: Shutdown then runs inline and erases from the map that StopGracefully iterates (src/tcpserver.cpp:161, src/tcpserver.cpp:251); the server model has at least one sub loop.
- The listening socket: accepts are possible from Start on; while stopping they are refused, as HandleNewConnection does.
- Allocation of a timer id and the push under the lock are one step.
- A ForceClose of another thread between the two halves of an inline Shutdown, which only leaves a functor behind that does nothing, is not modelled.
- Complete says that the table is empty. After a removal of a foreign entry that does not mean that every connection is closed.
- TcpServers.TcpServer.StopGracefully: the timeout value is not represented, since the server model has no clock; when timers fire is the subject of LoopRuns.
- Pointers: a TimerTask shared by heap, map and batch, and a connection shared by table and functors, are represented by ids.
- Lifetime of objects: nothing is ever freed in the model.
- After a stale ShutdownInLoop has re-registered a closed connection, the effect on another connection that reuses the fd is not modelled.
- Buffers.Buffer.ReadFromFd: on failure only Windows returns early. On Linux the code goes on into undefined behaviour, which has no model; SideBufferIsSafeIffReadSucceeded says that it does.
- TcpConnections.TcpConnection.HandleRead: a failed read follows the path of Windows, which leaves the buffer alone.
- TcpConnections.TcpConnection.SendInLoop: the high-water callback is taken to do nothing else to the connection than send, shut down and force-close.
- LoopRuns.NoLostWakeup: a safety statement; that a poll with a wakeup on the fd does return is left to the operating system.
- EchoServer.EndToEnd: nobody but the codec sends on the connection, and the high-water callback only logs, as in main.cpp.
