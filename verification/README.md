# Verification of the reactor library

A Dafny model of the library's event-driven core and proofs about it. Each module models one part of
the source in its own terms: a `State` value with one function per step, lemmas over every finite run
of steps, and, where the source has an object whose methods update its fields, a class with those
fields whose methods are proved to do exactly that step.

| module | what it models |
|---|---|
| `Timers` | the timer queue: two indices over heap timers with explicit addresses, callbacks that re-enter it during a batch, cancellation, the one-shot timerfd |
| `FunctorQueues`, `EventLoops` | one loop's functor queue, its swapped batch, the eventfd counter, and posting threads between a push and their wakeup |
| `Lifecycle` | a server with a base loop and any number of I/O loops: accepting, establishing, closing, erasing, destroying and destructing connections by functors that cross loops |
| `Connections` | a connection's output stream and half-close, with arbitrary short and failed writes, and calls of other threads that test, set and push |
| `Pollers` | PollPoller's array and EPollPoller's epoll calls, both against one registry; Channel's dispatch |
| `Common` | what several modules use |
| `Buffers` | the growing, compacting byte buffer |
| `Http` | the incremental request parser over that buffer, and the server callback that drives it |
| `Connectors` | the connector's sockets, retries and stops |
| `BoundedQueues` | the bounded blocking queue as a monitor |
| `Dates` | Julian day numbers against a calendar defined one day at a time |
| `LogStreams` | integer printing in place, into a fixed buffer |

Everything from outside (the clock, addresses returned by `new`, results of system calls, what user
code does) is an argument of a step. A failed assertion of the source is either shown impossible, or
is an explicit outcome with the exact condition under which it happens.

Where the code does not meet its evident intent, the model follows the code, a lemma with a concrete
input shows the failure, and another states exactly when it happens:

| what happens | input | exactly when |
|---|---|---|
| a functor bound to a plain `this` runs after its connection is gone: another thread's `send` or `shutdown` tested the state before the close and pushes after the erase | `LateSendDangles` | `EnabledIsSafe`, `LateExactly`, `LateIsSafeExactly` |
| SHUT_WR overtakes a `send` called before `shutdown` by the same thread | `SecondSendIsOvertaken` | `IssuesExactly`, `OvertakenExactly` |
| SHUT_WR overtakes another thread's `send` whose test came first | `OtherSendIsOvertaken` | `IssuesExactly`, `OvertakenExactly` |
| after the close SHUT_WR is issued with bytes unwritten | `ClosedShutsUnflushed` | `ShutIsCompleteExactly` |
| a direct write that meets a full socket makes `sendInLoop` append from one byte before the data | `FullSocketMangles` | `SendMangledExactly`, `FaithfulExactly` |
| a failed write in `handleWrite` becomes a huge unsigned count and an assertion fails | `FullSocketAborts` | `WriteAbortsExactly` |
| a functor queued by the loop's thread outside its phases is slept on | `PostBeforeLoopIsSleptOn` | `QuietPostIsLostExactly` |
| a quit before `loop()` is forgotten | `QuitBeforeLoopIsForgotten` | `QuitIsForgottenExactly` |
| PollPoller aborts on a channel that comes back | `ReturnAborts` | `ReturningChannelAborts`, `PollRunsExactly` |
| PollPoller aborts on removing a channel whose only update had no events | `BareChannelAborts` | `RemovableExactly`, `PollRunsExactly` |
| the close callback and then the read callback run | `HangupClosesThenReads` | `CloseThenReadExactly` |
| a second request that arrives in the same chunk waits for another call | `PipelinedRequestWaits` | `MessageEmptiesExactly`, `DeliversAllExactly` |
| parsing on after a failure meets an assertion | `BadVersionAborts` | `MethodUnsetUntilFailure` |
| a header line without ':' ends the headers though it is not empty | `JunkEndsHeaders` | `HeadersEndExactly` |
| a start while a retry timer is pending aborts | `StopThenStartAborts` | `AbortsExactly` |
| a restart strands an attempt in progress | `RestartStrands` | `RestartStrandsExactly` |
| a number appended by `appendInt16`, which takes 64 bits, does not read back | `FortyThousandDoesNotReadBack` | `IntRoundTripExactly` |
| a queue of capacity zero gets stuck | `ZeroGetsStuck` | `StuckExactly` |
| a day number overflows 32 bits | `FirstOverflow` | `OverflowsExactly` |

Hypotheses: a mutex region, and each test of `state_` with the assignment after it, is one atomic step;
the push that follows is another. User callbacks act through the public API, and a thread holds a
pointer to the connection for as long as its call lasts. The functors of `startRead` and `stopRead` do
not run once `handleClose` has run, and the event masks of `CloseThenReadExactly` are not delivered to a
connection. Counters (`s_numCreated_`, `nextConnId_`) and timestamps do not overflow 64 bits. The clock is not before
the epoch, as on Linux it is not; otherwise a timer whose restarted expiration is not a valid Timestamp
would be left unarmed (`ResetCoversExactly`, with the run `NegativeClockLosesTimer`).

## Model

| member | source | states |
|---|---|---|
| Timers.EveryRun | muduo/net/TimerQueue.cpp:108-212 | in every run with callbacks that add and cancel at will, both indices hold the same timers and have equal size, the expired batch is disjoint from them, every live timer is in exactly one place and none is deleted twice or used after deletion; runs are in order; with a positive clock the timerfd always wakes the loop in time |
| Timers.StepsKeepInv | muduo/net/TimerQueue.cpp:108-212 | the ownership and agreement invariant holds through every run from every state that has it |
| Timers.SizesAgree | muduo/net/TimerQueue.cpp:120-166 | the repeated assertion that both sets have the same size |
| Timers.CancelKills | muduo/net/TimerQueue.cpp:117-132 | a processed cancel leaves the timer either deleted or in the running batch and marked |
| Timers.DeadRunsAtMostOnce | muduo/net/TimerQueue.cpp:117-149 | over any continuation a cancelled timer runs no more often than it was waiting in the batch |
| Timers.CancelIsFinal | muduo/net/TimerQueue.cpp:117-181 | after a cancel a timer runs at most once more, not at all unless a batch is running, and never after that batch's reset |
| Timers.StaleCancelIsInert | muduo/net/TimerQueue.cpp:117-132 | cancelling an id whose address was reused changes no timer and no callback of any continuation |
| Timers.StaleForever | muduo/net/Timer.h:16-23 | a pair of address and sequence number that is stale stays stale, because numbers are never reused |
| Timers.AlwaysCovered | muduo/net/TimerQueue.cpp:50-62 | with a positive clock, outside a batch, a non-empty queue has the timerfd pending or armed no later than the earliest expiration or 100us after arming |
| Timers.ResetCoversExactly | muduo/net/TimerQueue.cpp:170-189 | the earliest of the queued expirations and the restarted ones, all known before reset, comes first after it, and is covered exactly if it is valid or the timerfd covered it already |
| Timers.NegativeClockLosesTimer | muduo/net/TimerQueue.cpp:182-188 | a run with a clock before the epoch that queues a timer and arms nothing |
| Timers.StepsKeepHistory | muduo/net/TimerQueue.cpp:151-181 | no timer runs before its expiration, a batch runs in nondecreasing expiration, and runs of a repeating timer have batch times at least its interval apart |
| Timers.TimerDoesWhatWasAsked | muduo/net/Timer.h:16-23 | over every run after an addTimer, each run of the timer has the kind and interval asked for, the first is due when asked for, and a timer that is not to repeat runs at most once |
| Timers.BatchExactly | muduo/net/TimerQueue.cpp:134-189 | a whole handleRead, whatever its callbacks do: exactly the due timers run, once each and in order; a due timer lives on, one interval later, exactly if it repeats and no callback cancels it, and any other exactly unless one does |
| Timers.HowMuchTimeFromNow | muduo/net/TimerQueue.cpp:29-38 | the timespec denotes the time to the deadline but at least 100us, with a valid nanosecond part |
| Timers.Arm | muduo/net/TimerQueue.cpp:50-62 | arming gives a deadline no later than the expiration or 100us from now |
| Timers.Insert | muduo/net/TimerQueue.cpp:202-205 | insertion in a strictly ordered set adds exactly one element and keeps the order |
| Timers.Due | muduo/net/TimerQueue.cpp:155-157 | the sentry splits the set into the entries not after now and those after it |
| Timers.ErasesOne | muduo/net/TimerQueue.cpp:161-165 | each erasure of an expired timer from activeTimers_ finds exactly one element |
| Timers.TimerQueue.NewTimer | muduo/net/TimerQueue.cpp:96-101 | a fresh timer with the next sequence number, not yet queued |
| Timers.TimerQueue.InsertTimer | muduo/net/TimerQueue.cpp:191-212 | its assertions hold; both indices gain the timer; the result says whether the earliest expiration changed |
| Timers.TimerQueue.AddTimerInLoop | muduo/net/TimerQueue.cpp:108-115 | the whole new state, with the invariant kept |
| Timers.TimerQueue.Cancel | muduo/net/TimerQueue.cpp:117-132 | the whole new state, with the invariant kept and all assertions met |
| Timers.TimerQueue.GetExpired | muduo/net/TimerQueue.cpp:151-168 | exactly the due entries move out of both indices, in order |
| Timers.TimerQueue.Reset | muduo/net/TimerQueue.cpp:170-189 | repeating, uncancelled timers return to the queue, all others of the batch are deleted, then the timerfd is armed |
| Timers.TimerQueue.HandleRead | muduo/net/TimerQueue.cpp:134-149 | for any callbacks, re-entrant ones included, and whether or not a re-arm has dropped the expiration, the result is that of the corresponding run of steps, invariant included |
| FunctorQueues.QueueIsFifo | muduo/net/EventLoop.cpp:219-234 | pushing appends to what waits, swapping and finishing keep it, running takes its oldest |
| EventLoops.ExactlyOnceInOrder | muduo/net/EventLoop.cpp:200-234 | at every moment executed, then the rest of the batch, then pending is everything ever queued, in order |
| EventLoops.NoLostWakeup | muduo/net/EventLoop.cpp:129-139 | if the loop's thread queues only from handlers and functors, a loop blocked with work or a quit pending will be woken |
| EventLoops.OnlyQuietPostsAreLost | muduo/net/EventLoop.cpp:129-139 | in every run at all, a loop that sleeps on functors sleeps only on those queued without a wakeup, and never on a quit |
| EventLoops.QuietPostIsLostExactly | muduo/net/EventLoop.cpp:82-138 | such a functor, queued before loop() or between its phases, is slept on exactly if the loop goes on to poll, no wakeup was due, and no other thread queues or quits on the way, whatever steps are taken in between |
| EventLoops.QuitIsForgottenExactly | muduo/net/EventLoop.cpp:82-118 | over every run after it, a quit is remembered exactly if loop() is not entered |
| EventLoops.QuitEndsLoop | muduo/net/EventLoop.cpp:82-118 | over every run after a quit, from any thread, without a new loop(): the loop is not left asleep, polls no more, and returns |
| EventLoops.LoopRunsOn | muduo/net/EventLoop.cpp:90-106 | without a quit the loop does not return |
| EventLoops.DrainedExactly | muduo/net/EventLoop.cpp:200-217 | after the wakeup channel's read, the eventfd is readable or about to be exactly if a wakeup was under way or one has been caused since, by another thread or in a functor |
| EventLoops.PostBeforeLoopIsSleptOn | muduo/net/EventLoop.cpp:82-92 | a run that queues before loop() and sleeps |
| EventLoops.QuitBeforeLoopIsForgotten | muduo/net/EventLoop.cpp:87 | a run whose quit before loop() has no effect |
| EventLoops.EventLoop.QueueInLoop | muduo/net/EventLoop.cpp:129-139 | the push, and a wakeup exactly if called from another thread or a functor |
| EventLoops.EventLoop.DoPendingFunctors | muduo/net/EventLoop.cpp:219-234 | runs the swapped batch in order, whatever is queued meanwhile waits for a later one |
| EventLoops.EventLoop.Turn | muduo/net/EventLoop.cpp:90-106 | one turn of loop() is the run of its poll, its handlers and its functors; whatever was queued before it has run |
| EventLoops.EventLoop.Quit | muduo/net/EventLoop.cpp:112-118 | the flag, and a wakeup if called from another thread |
| Lifecycle.EveryRun | muduo/net/TcpServer.cpp:54-88 | in every run, with any number of I/O loops, every connection is established once, closed at most once, then erased once, then destroyed once; while registered it is held; and a possible next step fails an assertion or touches a destroyed object exactly if it runs a late plain functor whose connection is gone |
| Lifecycle.EnabledIsSafe | muduo/net/TcpConnection.cpp:231-250 | in every state of the invariant the assertions of a step hold and the objects it touches exist, with exactly that exception |
| Lifecycle.LateExactly | muduo/net/TcpConnection.cpp:71-147 | a send or shutdown pushes a late functor exactly if its connection has left connections_ since the test |
| Lifecycle.LateIsSafeExactly | muduo/net/TcpConnection.cpp:77-145 | a late functor finds its connection alive, however promptly it would be destructed, exactly if somebody holds it when it runs |
| Lifecycle.KeptIsAlive | muduo/net/TcpConnection.cpp:71-147 | in every run in which the caller keeps its pointer the connection stays alive |
| Lifecycle.LateSendDangles | muduo/net/TcpConnection.cpp:73-78 | a run from a new server in which a send's functor runs on a destroyed connection |
| Lifecycle.StepsKeepInv | muduo/net/TcpServer.cpp:54-88 | the invariant over connections, functors and loops holds through every run |
| Lifecycle.RegisteredIsHeld | muduo/net/TcpConnection.cpp:231-250 | a registered channel's connection is held by the map, a waiting functor, a running callback or the user |
| Lifecycle.Settled | muduo/net/TcpServer.cpp:80-88 | with no functor left about it, a connection is gone from map and poller exactly if it closed |
| Lifecycle.CloseIsOnce | muduo/net/TcpConnection.cpp:292-303 | over every run after a close, the peer's or a forced one, the connection stays closed, was closed once, and no handler can find a close of it again |
| Lifecycle.StateAdvances | muduo/net/TcpConnection.h:75-75 | over every run state_ only advances from kConnecting to kDisconnected |
| Lifecycle.ClosingIsFinal | muduo/net/TcpConnection.cpp:71-175 | after shutdown, forceClose or forceCloseWithDelay no send and no shutdown has any effect in any run |
| Lifecycle.ForceCloseCloses | muduo/net/TcpConnection.cpp:157-183 | over every run after a forceClose the connection has closed, or its functor is about to be pushed or waits on its loop |
| Lifecycle.CallsExactly | muduo/net/TcpConnection.cpp:71-147 | when a send, shutdown or forceClose goes on to push a functor |
| Lifecycle.PushedWaits | muduo/net/EventLoop.cpp:129-139 | what is pushed waits on the connection's own loop, behind all that waits there |
| Lifecycle.TcpServer.NewConnection | muduo/net/TcpServer.cpp:54-73 | the connection enters the map and connectEstablished runs or is queued on its loop |
| Lifecycle.TcpServer.RemoveConnectionInLoop | muduo/net/TcpServer.cpp:80-88 | exactly one entry is erased and connectDestroyed queued on the connection's loop |
| Lifecycle.TcpServer.HandleClose | muduo/net/TcpConnection.cpp:292-303 | the close, and the erase inline on the base loop or queued there |
| Lifecycle.TcpServer.ConnectEstablished | muduo/net/TcpConnection.cpp:231-239 | from kConnecting, once, registering the channel |
| Lifecycle.TcpServer.ConnectDestroyed | muduo/net/TcpConnection.cpp:241-250 | the channel, without events, leaves the poller |
| Lifecycle.TcpServer.RunNextFunctor | muduo/net/EventLoop.cpp:229-231 | running the next functor of any loop, unless its object is gone, is the step of the run and keeps the invariant |
| Connections.HalfClose | muduo/net/TcpConnection.cpp:71-155 | in every run: kernel bytes then buffer are the accepted messages in order exactly unless a failed direct write put other bytes there, and have their length in any case; writing is enabled exactly while the buffer is not empty; up to the close SHUT_WR means all accepted bytes are written, and once shutdownInLoop has run it is issued exactly then |
| Connections.FaithfulExactly | muduo/net/TcpConnection.cpp:101-139 | the same for every run from every reachable state: a corrupted stream is never right again, and nothing else corrupts it |
| Connections.EveryRun | muduo/net/TcpConnection.cpp:101-290 | in every run, failed writes included: byte counts are conserved, each sender's messages stay in its order and ahead of its own shutdown, what was given is accepted or dropped, and the water-mark law holds |
| Connections.SendMangledExactly | muduo/net/TcpConnection.cpp:101-139 | a send keeps the stream for any byte before the data exactly unless a direct write of it fails without a fatal error |
| Connections.FullSocketMangles | muduo/net/TcpConnection.cpp:113-134 | a full socket makes the buffer hold the byte before the message |
| Connections.WriteAbortsExactly | muduo/net/TcpConnection.cpp:268-274 | -1 in a size_t is more than any buffer holds, so retrieve's assertion fails exactly on a failed write while writing |
| Connections.FullSocketAborts | muduo/net/TcpConnection.cpp:268-274 | a short write and then a full socket end the program |
| Connections.HighWaterAlternates | muduo/net/TcpConnection.cpp:128-139 | over every run notifications and falls below the mark alternate, one is outstanding just while the buffer is not below it, and each is one functor, run or in the queue |
| Connections.CallbacksExactly | muduo/net/TcpConnection.cpp:101-290 | each sendInLoop and handleWrite queues the write-complete functor exactly if it has written out everything, and the high-water functor, with the size reached, exactly if the buffer crosses the mark |
| Connections.KernelTakesAnswers | muduo/net/TcpConnection.cpp:101-290 | over every run the kernel's bytes only grow, by the sum of what write has answered |
| Connections.ClosingIsFinal | muduo/net/TcpConnection.cpp:71-175 | after any call or event that ends the connection no message is taken in any run |
| Connections.ForceCloseCloses | muduo/net/TcpConnection.cpp:157-183 | over every run after a forceClose the connection is closed, or will be when the functor has run that waits or is about to be pushed |
| Connections.ShutIsFinal | muduo/net/TcpConnection.cpp:149-155 | after SHUT_WR the kernel takes no further byte in any run |
| Connections.ShutRoutes | muduo/net/TcpConnection.cpp:141-155 | a step that issues SHUT_WR leaves whatever any sender has in the queue or about to be pushed; in front of a thread's shutdown functor that is all of its own sends, so none of them is left |
| Connections.IssuesExactly | muduo/net/TcpConnection.cpp:141-290 | SHUT_WR is issued exactly by a shutdown in the loop's thread or a shutdown functor with writing off, or by the write that empties the buffer while disconnecting |
| Connections.ProgramOrder | muduo/net/TcpConnection.cpp:71-147 | in every run a thread's queued sends are ahead of its own shutdown, and none of it is about to be pushed behind it |
| Connections.OvertakenExactly | muduo/net/TcpConnection.cpp:141-290 | over every run and for every sender: a step issues SHUT_WR with some of its bytes not yet given to sendInLoop exactly if the step meets that guard while something of the sender is in the queue or about to be pushed; and then nothing more is written or asked for, whatever follows |
| Connections.SendersInOrder | muduo/net/TcpConnection.cpp:71-139 | in every run each sender's bytes are, in order, those given to sendInLoop, those in the queue and those about to be pushed; what was given is in kernel and buffer but for what was dropped, and after SHUT_WR it is all written exactly if nothing was dropped |
| Connections.SecondSendIsOvertaken | muduo/net/TcpConnection.cpp:274-283 | a run of send, send, shutdown from one thread whose second message is lost |
| Connections.OtherSendIsOvertaken | muduo/net/TcpConnection.cpp:71-147 | a run in which one thread's send is pushed behind another's shutdown and is lost |
| Connections.ClosedShutsUnflushed | muduo/net/TcpConnection.cpp:149-155 | a run that issues SHUT_WR after the close with bytes unwritten |
| Connections.ShutIsCompleteExactly | muduo/net/TcpConnection.cpp:149-155 | SHUT_WR is issued with every accepted byte written exactly unless the connection is closed with something left in its buffer |
| Connections.TcpConnection.SendInLoop | muduo/net/TcpConnection.cpp:101-139 | the whole new state, over a real Buffer, for every write result |
| Connections.TcpConnection.Send | muduo/net/TcpConnection.cpp:71-81 | inline in the loop's thread, elsewhere a copy about to be pushed, nothing unless connected |
| Connections.TcpConnection.Push | muduo/net/EventLoop.cpp:129-134 | the functor of another thread's call enters the queue |
| Connections.TcpConnection.SendBuffer | muduo/net/TcpConnection.cpp:83-94 | takes all of the buffer exactly if connected |
| Connections.TcpConnection.HandleWrite | muduo/net/TcpConnection.cpp:268-290 | the whole new state, over a real Buffer, for every write result |
| Connections.TcpConnection.Shutdown | muduo/net/TcpConnection.cpp:141-147 | the state changes at once; inline in the loop's thread, about to be pushed elsewhere |
| Connections.TcpConnection.ForceClose | muduo/net/TcpConnection.cpp:157-163 | the state changes at once; the functor is queued, or about to be |
| Connections.TcpConnection.RunNext | muduo/net/EventLoop.cpp:229-231 | running the connection's next functor is the step of the run |
| Pollers.PollersAgree | muduo/net/PollPoller.cpp:52-109 | PollPoller goes through a run exactly if no channel comes back or is removed without ever having had events; then EPollPoller does too, with the same channels, and both watch the same descriptors for the same events |
| Pollers.PollRunsExactly | muduo/net/PollPoller.cpp:52-109 | over runs, no assertion fails exactly on accepted traces, and the array, map and indices stay a bijection |
| Pollers.PollAcceptsExactly | muduo/net/PollPoller.cpp:52-97 | the assertions hold exactly on the updates and removals the registry accepts |
| Pollers.PollRemoveKeeps | muduo/net/PollPoller.cpp:85-109 | swap-removal keeps map, array and back-indices a bijection, with negation exactly for channels updated to no events |
| Pollers.EpollRunsExactly | muduo/net/EPollPoller.cpp:80-128 | over runs, assertions hold and every epoll_ctl is legal exactly on accepted traces |
| Pollers.EpollAcceptsExactly | muduo/net/EPollPoller.cpp:80-128 | one step of it, including ADD only when absent and MOD and DEL only when present |
| Pollers.EpollStepKeeps | muduo/net/EPollPoller.cpp:80-145 | kAdded exactly while the kernel has the descriptor, kDeleted only without events |
| Pollers.EpollUpdateDoes | muduo/net/EPollPoller.cpp:80-110 | after an accepted update the kernel has the fd with its events unless it took a kAdded channel to none |
| Pollers.ReturningChannelAborts | muduo/net/PollPoller.cpp:56-70 | an update of a removed channel fails an assertion, whatever the events |
| Pollers.ReturnAborts | muduo/net/PollPoller.cpp:56-70 | a run of one channel that shows it |
| Pollers.RemovableExactly | muduo/net/PollPoller.cpp:56-95 | after updates that end with no events, a removal succeeds exactly if there was more than one |
| Pollers.BareChannelAborts | muduo/net/PollPoller.cpp:56-95 | a channel that is disabled and removed |
| Pollers.ReadyExactly | muduo/net/PollPoller.cpp:39-50 | the scan's result is exactly the registered channels with received events, each once |
| Pollers.Negated | muduo/net/PollPoller.cpp:80-104 | the encoding of an ignored descriptor is its own inverse and flips the sign |
| Pollers.CloseThenReadExactly | muduo/net/Channel.cpp:67-90 | with both set, the read callback follows the close callback exactly on HUP without IN but with PRI or RDHUP, and never precedes it |
| Pollers.HangupClosesThenReads | muduo/net/Channel.cpp:67-90 | such a mask |
| Pollers.DispatchExactly | muduo/net/Channel.cpp:67-90 | the same of the dispatch, on every mask and for every choice of callbacks |
| Pollers.Channel.HandleEvent | muduo/net/Channel.cpp:54-90 | no callback when the tied object is gone; otherwise each that is set, exactly on its bits, once, in the order close, error, read, write |
| Pollers.PollPoller.UpdateChannel | muduo/net/PollPoller.cpp:52-83 | the accepted step, on the channel object and in the array |
| Pollers.PollPoller.RemoveChannel | muduo/net/PollPoller.cpp:85-109 | the accepted step, including the index of the channel that is moved |
| Pollers.PollPoller.FillActiveChannels | muduo/net/PollPoller.cpp:39-50 | stopping at the count loses nothing; each ready channel gets its received events |
| Pollers.EPollPoller.UpdateChannel | muduo/net/EPollPoller.cpp:80-110 | the accepted step |
| Pollers.EPollPoller.RemoveChannel | muduo/net/EPollPoller.cpp:112-128 | the accepted step |
| Pollers.EPollPoller.FillActiveChannels | muduo/net/EPollPoller.cpp:42-78 | every reported channel passes its assertion and gets its events, no other changes, and a full list is doubled |
| Buffers.FirstCrlf | muduo/net/Buffer.h:56-60 | the first CRLF or none |
| Buffers.BigEndianReadsBack | muduo/net/Buffer.h:170-250 | bytes in network order read back as the number |
| Buffers.IntRoundTripExactly | muduo/net/Buffer.h:170-250 | an integer reads back exactly if it fits the width |
| Buffers.FortyThousandDoesNotReadBack | muduo/net/Buffer.h:182-186 | one that does not |
| Buffers.Buffer.MakeSpace | muduo/net/Buffer.h:301-313 | both branches keep the contents, give the space, meet the assertion and keep the vector within twice the demand |
| Buffers.Buffer.Append | muduo/net/Buffer.h:135-153 | contents followed by the data, size bound kept |
| Buffers.Buffer.Retrieve | muduo/net/Buffer.h:84-98 | contents without their front |
| Buffers.Buffer.RetrieveAsString | muduo/net/Buffer.h:117-123 | what is returned and what is left are the contents |
| Buffers.Buffer.Prepend | muduo/net/Buffer.h:275-281 | the data followed by the contents |
| Buffers.Buffer.Unwrite | muduo/net/Buffer.h:161-165 | contents without their end |
| Buffers.Buffer.Shrink | muduo/net/Buffer.h:283-289 | same contents in a vector bounded by what they and the reserve need |
| Buffers.Buffer.Swap | muduo/net/Buffer.h:45-50 | the two buffers exchange contents and sizes |
| Buffers.Buffer.ReadFd | muduo/net/Buffer.cpp:13-38 | the received bytes are appended whole, across both segments |
| Buffers.Buffer.AppendInt | muduo/net/Buffer.h:170-191 | contents followed by the integer in network order |
| Buffers.Buffer.ReadInt | muduo/net/Buffer.h:193-250 | the integer at the front, which is removed |
| Buffers.Buffer.PrependInt | muduo/net/Buffer.h:252-273 | the integer in network order, then the contents |
| Http.ChunkingIsIrrelevant | muduo/net/http/HttpContext.cpp:41-79 | however the bytes are cut into chunks, verdict, state, request and leftover are those of parsing them whole |
| Http.ParseSplits | muduo/net/http/HttpContext.cpp:41-79 | for every split, CRLF included, parsing the parts is parsing the whole |
| Http.DeliversInOrder | muduo/net/http/HttpServer.cpp:53-68 | delivered requests and those still in the buffer are, in order, the requests of the whole stream |
| Http.DeliversAPrefix | muduo/net/http/HttpServer.cpp:53-68 | so delivery is a prefix of the requests of the stream |
| Http.MessageEmptiesExactly | muduo/net/http/HttpServer.cpp:53-68 | a call delivers one request if one is complete, and leaves none waiting exactly if at most one was |
| Http.DeliversAllExactly | muduo/net/http/HttpServer.cpp:53-68 | over every sequence of chunks all requests of the stream are delivered exactly if, from every point on, the chunks to come complete no more requests than they are |
| Http.PrintThenParse | muduo/net/http/HttpContext.cpp:7-79 | a rendered well-formed request, its headers in any order and with any white space around their values, parses back to itself and leaves what follows |
| Http.RequestLineExactly | muduo/net/http/HttpContext.cpp:7-38 | a line is accepted, and as a request, exactly if that request renders as it |
| Http.FailsExactly | muduo/net/http/HttpServer.cpp:53-68 | a call answers 400 exactly if the request line is there whole and renders no request |
| Http.Trims | muduo/net/http/HttpRequest.h:101-114 | trimming takes off all the white space around a value and nothing else |
| Http.PipelinedRequestWaits | muduo/net/http/HttpServer.cpp:59-67 | of two requests in one chunk the second waits for another call |
| Http.MethodUnsetAlways | muduo/net/http/HttpRequest.h:41-52 | without failures setMethod's assertion always holds |
| Http.MethodUnsetUntilFailure | muduo/net/http/HttpRequest.h:41-52 | after a failure the bad line is still at the front, and the next parse meets the assertion exactly if that line does not start with one of the five methods and a space |
| Http.BadVersionAborts | muduo/net/http/HttpRequest.h:43 | a line that does |
| Http.HeadersEndExactly | muduo/net/http/HttpContext.cpp:60-70 | the headers end at the first line without a colon and leave what follows it; that is where they should end, at the first empty line, exactly if that line is empty |
| Http.JunkEndsHeaders | muduo/net/http/HttpContext.cpp:63-69 | one that is not empty |
| Http.MethodRoundTrip | muduo/net/http/HttpRequest.h:41-80 | setMethod undoes methodString |
| Http.UnfinishedIsFixed | muduo/net/http/HttpContext.cpp:41-79 | an unfinished parse has consumed every complete line |
| Http.Parse | muduo/net/http/HttpContext.cpp:41-79 | the parse ends, consumes input whenever it completes a request, and ends in a state from which it may go on or complete |
| Http.HttpContext.AddHeader | muduo/net/http/HttpRequest.h:101-114 | the two loops store exactly the value that stands between any white space before and behind it |
| Http.HttpContext.ProcessRequestLine | muduo/net/http/HttpContext.cpp:7-38 | verdict and request, with what a failing line leaves set |
| Http.HttpContext.ParseRequest | muduo/net/http/HttpContext.cpp:41-79 | the loop over a real Buffer terminates with the outcome of the parse |
| Http.OnMessage | muduo/net/http/HttpServer.cpp:53-68 | at most one request per call, then a fresh context, bad input answered |
| Connectors.EveryRun | muduo/net/Connector.cpp:28-178 | in every run with any starts, stops and restarts, each socket is in exactly one place: with the registered channel, closed once, or handed over once; and the k-th delay is 500ms doubled k times, at most 30s |
| Connectors.StoppedStaysStopped | muduo/net/Connector.cpp:45-59 | after stop with no later start no socket is created or handed over, whatever is pending |
| Connectors.SocketsExactly | muduo/net/Connector.cpp:28-178 | for every step, on the state before it: when a socket is made, handed over, closed, and a timer asked for |
| Connectors.StopTakesEffect | muduo/net/Connector.cpp:45-59 | over every run after a stop no attempt is in progress once stopInLoop has run |
| Connectors.StartTakesEffect | muduo/net/Connector.cpp:28-43 | over every run after a start from another thread a socket has been made or startInLoop is still to run |
| Connectors.AbortsExactly | muduo/net/Connector.cpp:28-129 | over every run an assertion fails exactly if a start, restart or retry timer in it overlaps an attempt, or finds the last one's channel and connect in progress |
| Connectors.OrderlyRunsNeverAbort | muduo/net/Connector.cpp:28-129 | so calls that keep apart never fail one, and then a channel is registered exactly in kConnecting |
| Connectors.StartAbortsExactly | muduo/net/Connector.cpp:34-43 | when an attempt fails an assertion |
| Connectors.StopThenStartAborts | muduo/net/Connector.cpp:167-178 | stop does not cancel the retry timer: a run that aborts |
| Connectors.RestartStrandsExactly | muduo/net/Connector.cpp:98-105 | a restart leaves a registered channel unattended exactly if an attempt was on |
| Connectors.RestartStrands | muduo/net/Connector.cpp:98-105 | a run that shows it |
| Connectors.Connector.Connect | muduo/net/Connector.cpp:61-96 | the errno classes |
| Connectors.Connector.HandleWrite | muduo/net/Connector.cpp:131-154 | the new state for every answer |
| Connectors.Connector.HandleError | muduo/net/Connector.cpp:156-165 | the new state |
| Connectors.Connector.StopInLoop | muduo/net/Connector.cpp:51-59 | the new state |
| Connectors.Connector.Retry | muduo/net/Connector.cpp:167-178 | closes, and asks for a timer exactly if still wanted |
| Connectors.Connector.Restart | muduo/net/Connector.cpp:98-105 | the new state, with the delay reset |
| Connectors.Connector.RunNext | muduo/net/EventLoop.cpp:229-231 | running the connector's next functor is the step of the run |
| BoundedQueues.EveryRun | muduo/base/BoundedBlockingQueue.h:25-58 | for any interleaving with barging and spurious wakeups: takes return puts in order, size within capacity, and while a thread sleeps enough awakened ones are on their way |
| BoundedQueues.StuckExactly | muduo/base/BoundedBlockingQueue.h:25-58 | producers and consumers can all end up asleep exactly if the capacity is zero |
| BoundedQueues.ZeroGetsStuck | muduo/base/BoundedBlockingQueue.h:25-58 | a run that does |
| BoundedQueues.StepKeepsNoLostWakeup | muduo/base/BoundedBlockingQueue.h:25-58 | every step keeps the number of awakened threads sufficient, on both sides |
| BoundedQueues.CallsDoTheirWork | muduo/base/BoundedBlockingQueue.h:25-58 | over every run after a put its item has been put or its thread waits with it, after a take something has been taken or the thread waits; at once exactly if there is room, or an item |
| BoundedQueues.BoundedBlockingQueue.Put | muduo/base/BoundedBlockingQueue.h:25-45 | pushes and signals, or waits, from getting the mutex to giving it up |
| BoundedQueues.BoundedBlockingQueue.Take | muduo/base/BoundedBlockingQueue.h:47-58 | returns the oldest item and signals, or waits |
| Dates.DateRoundTrip | muduo/base/Date.cpp:12-34 | every valid date from 1 March -4800 on is given back by its number |
| Dates.NumberRoundTrip | muduo/base/Date.cpp:12-34 | every number from -32044 on gives a valid date with that number |
| Dates.CountsDays | muduo/base/Date.cpp:12-34 | the closed formulas are the k-fold next day of the calendar, and its inverse |
| Dates.NextDayIsNextNumber | muduo/base/Date.cpp:12-19 | one more per calendar day, over months, leap days and centuries |
| Dates.SameOrder | muduo/base/Date.cpp:12-19 | numbers are ordered exactly as dates are |
| Dates.OverflowsExactly | muduo/base/Date.cpp:21-34 | no intermediate result leaves 32 bits exactly up to 536838867 |
| Dates.FirstOverflow | muduo/base/Date.cpp:21-34 | the next number overflows |
| Dates.DatesFit | muduo/base/Date.cpp:12-19 | nor does any intermediate result of getJulianDayNumber on those dates |
| Dates.Epoch | muduo/base/Date.cpp:37 | the constant for 1970-01-01, and its weekday |
| LogStreams.TextReadsBack | muduo/base/LogStream.cpp:34-53 | the text of every integer reads back as it, without redundant leading zero |
| LogStreams.DigitsReadBack | muduo/base/LogStream.cpp:34-70 | so does every decimal and hexadecimal numeral |
| LogStreams.TextFits | muduo/base/LogStream.cpp:228-235 | at most 20 characters for any 64-bit integer and 16 hexadecimal digits |
| LogStreams.Convert | muduo/base/LogStream.cpp:34-53 | the text and its terminator, by truncating remainders and an in-place reversal, and no other byte changes |
| LogStreams.ConvertHex | muduo/base/LogStream.cpp:56-70 | the hexadecimal numeral and its terminator, and no other byte changes |
| LogStreams.WriteDigits | muduo/base/LogStream.cpp:37-64 | the loop leaves the numeral reversed, for negative remainders too |
| LogStreams.Reverse | muduo/base/LogStream.cpp:51-68 | the range is reversed and nothing else changes |
| LogStreams.LogStream.FormatInteger | muduo/base/LogStream.cpp:228-235 | appends the text if 32 bytes are left and nothing otherwise, inside the buffer |
| LogStreams.LogStream.FormatPointer | muduo/base/LogStream.cpp:285-297 | likewise for pointers |
| LogStreams.LogStream.Append | muduo/base/LogStream.h:36-43 | text that leaves no byte free is dropped whole |

## Left out

- Connections.TcpConnection.SendBuffer: does not take the connection's own output buffer while it has bytes in it, since the append this leads to may replace the storage it reads from.
- Connectors.OrderlyRunsNeverAbort: assumes that the functor that destroys a removed channel runs before the next attempt, as the loop's turns make sure for timers.
- Http.HttpContext.ParseRequest: is called in the two reachable entry states; in the others the source's loop does not end.
- EventLoops.EventLoop.Turn: `loop()` itself is any number of turns; the loop that need not end is not written out.
- Pollers.PollPoller.FillActiveChannels: poll's answer is an input that leaves negative descriptors alone and whose count is right.
- Buffers.Buffer.ReadFd: the result of readv is an input no longer than its two segments.
- Input side of a connection (`handleRead`, `startRead`, `stopRead`) apart from the close it may cause and Buffer's part in it.
- Changing the high-water mark or a callback while a connection is open.
- Receive times of requests; HTTP response printing.
- `isspace` is that of the C locale; bytes are characters below 256.
- `findEOL`, the 32-bit length of `toStringPiece`, and the sizes at which `size_t` arithmetic would overflow.
- Intervals of timers are whole microseconds; the conversion from `double` seconds is not modelled.
- Destruction of TcpServer, TcpClient, TimerQueue or EventLoop while work is pending.
- Sockets, addresses, the acceptor and every system call beyond its result.
- `formatSI`, `formatIEC` and floating-point formatting, which rest on rounding in the C library.
- Logging back ends, threads, mutexes and condition variables as such, exceptions, and the examples and tests of the repository.
