# The wake-up machinery of complete_io, modelled and proved in Dafny

complete_io runs futures on a pool of worker threads that wait in `epoll` (or on a completion port).  This project
models how a piece of work reaches a worker, goes to sleep, and is woken again, and proves what the code relies on:
that a future is never polled by two threads at once, that no notify is lost, that no work is stranded while every
worker is blocked, and that memory shared with the kernel outlives the kernel's use of it.  Where the code does not
give a guarantee, the exact condition under which it does is proved instead.

| file | what it models |
|---|---|
| `Prelude.dfy` | options, `Vec::swap_remove`, sums of per-element counts |
| `TaskProtocol.dfy` | the `signal_level` of one global task, with its access history; class `GlobalTask` with `do_poll` and `notify` |
| `CustomEvents.dfy` | the custom-event channel (queue, semaphore eventfd, one-shot registration) as a step system; class `CustomEvent` |
| `Interests.dfy` | the interest table of an fd; classes `FutureInterest` and `FuturesRegistration` with the `swap_remove` loop |
| `WakeSystem.dfy` | all of these composed with the worker loop: one action for each atomic access of each thread |
| `WakeInvariant.dfy` | the invariant of the composed system |
| `WakeProofs.dfy`, `WakeInterestProofs.dfy` | one lemma for each step: it keeps the invariant |
| `WakeTheorems.dfy` | what holds in every reachable state |
| `WakeRest.dfy` | every run without new input is finite, and ends with all workers blocked |
| `WakeBounds.dfy` | the same for runs in which the kernel also delivers events that fire somebody |
| `WakeLives.dfy` | whole runs: interests fire and notify once; two ways in which a wake is lost for good |
| `WakeLedger.dfy` | the state as a record of the run: ledgers of each task, interest and worker; what users may do at any time |
| `WakeReports.dfy` | exactly which interests some continuation still notifies for |
| `WakeSleepers.dfy` | exactly which sleeper an interest can still wake, and what becomes of one that was replaced |
| `WakeScenario.dfy` | runs, step by step, from a fresh pool to a lost wake and to a replaced sleeper |
| `RunLoop.dfy` | `EventQueue::run`, `InterruptNotify` and the signal-based interrupt; class `Runner` |
| `NetFutures.dfy` | the read future of a TCP stream on epoll; classes `TcpStream` and `TcpRead` |
| `StreamReads.dfy` | any number of reads on one stream: a value that says what every poll, arrival and event does, and the objects driven beside it |
| `SpentReads.dfy` | a read left pending on an interest that has fired |
| `Overlapped.dfy` | the reference an overlapped operation holds on its task; classes `OverlappedTask` and `SocketFuture` |

The composed system (`WakeSystem`) interleaves the atomic accesses of any number of workers, posters and notifiers
on any number of tasks, fds and interests.  What the code does not decide is a parameter of an action: which events
the kernel reports, what a future does inside its poll, who clones or drops which notify handle.  `Reachable` means
reached from a fresh pool by some such interleaving.  The invariant counts run tokens, references, deliveries and
firings as sums over the workers, so its statements hold for pools of any size.

## Model

| member | source | states |
|---|---|---|
| TaskProtocol.LevelCountsNotifies | src/evloop/threadpool/mod.rs:286-326 | inside `do_poll` the level is the value read plus the notifies since; asleep it is the notifies since |
| TaskProtocol.SleepIffUnnotified | src/evloop/threadpool/mod.rs:292-298 | the compare_exchange succeeds if and only if no notify came since the level was read |
| TaskProtocol.NoLostNotify | src/evloop/threadpool/mod.rs:286-326 | at level 0 every notify ever made is followed by a complete poll |
| TaskProtocol.PollBudget | src/evloop/threadpool/mod.rs:287-304 | polls begun are at most one more than notifies; each repoll is paid for by its own notify |
| TaskProtocol.GlobalTask.Notify | src/evloop/threadpool/mod.rs:308-325 | the level goes up by one, and the caller has to enqueue exactly if it was 0 |
| TaskProtocol.GlobalTask.CompareExchange | src/evloop/threadpool/mod.rs:292-298 | sleeps exactly if no notify came since the load, else continues with the level found |
| TaskProtocol.GlobalTask.DoPoll | src/evloop/threadpool/mod.rs:286-306 | ends finished, or at level 0 with every notify of the run answered by a later poll; polls once a round until one is ready or unnotified |
| CustomEvents.StepKeepsInv | src/epoll/mod.rs:107-137 | creation, posting and handling, in any interleaving, keep order, counts, one-shot exclusivity and the no-strand condition |
| CustomEvents.SetUpOpens | src/epoll/mod.rs:107-137 | creation, step by step, ends with the channel the pool starts from |
| CustomEvents.ChannelSafety | src/epoll/mod.rs:452-514 | data handed out plus data queued is data pushed, in order; a queued datum has a count, a poster or a drain; one handler at most; it finds a count and a published event |
| CustomEvents.DrainMeasure | src/epoll/mod.rs:488-513 | from eventfd count n, quiet runs are finite, deliver at most n times, lower the count by one a read, empty the queue with the first handler, and end after exactly n deliveries |
| CustomEvents.CustomEvent.PostCustomEvent | src/epoll/mod.rs:452-468 | at any time, push and write with a handler possibly in between: the datum is queued or handed out, once and in order; one count more, or a half-done post if the write fails |
| CustomEvents.CustomEvent.HandleEvent | src/epoll/mod.rs:488-513 | one count is read; everything queued or arriving before the empty pop is handed out in order; armed again |
| Interests.FuturesRegistration.AddInterest | src/epoll/mod.rs:376-390 | the entry is appended, the kernel is re-armed exactly if the mask was not covered, and the exact condition under which table and arming stay in agreement |
| Interests.FuturesRegistration.HandleEvent | src/epoll/mod.rs:416-443 | the hit interests are fired and leave, the rest stay, as multisets; the unfired interests are exactly the listed ones; no flag is cleared; re-armed with the union of what stays, if anything does |
| Interests.FuturesRegistration.Sweep | src/epoll/mod.rs:422-438 | the `swap_remove` loop terminates and splits the table by the hit test, with the accumulated mask; no flag is cleared |
| Interests.FuturesRegistration.Deliver | src/epoll/mod.rs:286-293 | a one-shot delivery disarms and is pending; the agreement is kept |
| Interests.FutureInterest.Poll | src/epoll/mod.rs:402-413 | ready exactly if fired, else the current task is in the slot |
| Interests.SplitIsFilter | src/epoll/mod.rs:418-442 | any split by the hit test is the filter, up to order |
| Interests.UnionOfBag | src/epoll/mod.rs:376-390 | the armed mask depends on the entries, not on the order `swap_remove` leaves |
| Interests.DeliveryProgress | src/epoll/mod.rs:424-428 | a delivery shortens the table if and only if it carries HUP or ERROR or its word lies in some listed mask; otherwise nothing changes |
| Interests.AlwaysHitIff | src/epoll/mod.rs:424-442 | every delivery the arming allows hits an entry if and only if it asks for all the table asks for, HUP and ERROR aside |
| Interests.NoStallIff | src/epoll/mod.rs:424-442 | every delivery the arming allows fires somebody if and only if some entry asks for all the table asks for, HUP and ERROR aside |
| Interests.EqualMasksEmpty | src/epoll/net.rs:77-84 | with equal masks, every delivery the armed union allows empties the table |
| Interests.ReadWriteDeliveryFiresNobody | src/epoll/mod.rs:424 | a limit: a READ and WRITE delivery fires neither a pure READ nor a pure WRITE interest |
| WakeTheorems.StepKeepsInv | src/evloop/threadpool/mod.rs:286-438 | every step of every thread keeps the invariant of the composed system |
| WakeTheorems.ExclusivePolling | src/evloop/threadpool/mod.rs:286-306 | no two workers are in `do_poll` of one task; a polled task is unfinished and nowhere queued |
| WakeTheorems.SingleToken | src/evloop/threadpool/mod.rs:286-326 | posted pointers, deque entries, active polls and unpushed notifies of a task are one in all if it is unfinished and above level 0, and none otherwise |
| WakeTheorems.HeldIffDue | src/evloop/threadpool/mod.rs:286-326 | a task is posted, queued, polled or about to be pushed if and only if it is unfinished and above level 0 |
| WakeTheorems.PolledEnough | src/evloop/threadpool/mod.rs:287-320 | poll budget and no lost notify for every task of the pool, in every reachable state |
| WakeTheorems.NoStrandedWork | src/evloop/threadpool/mod.rs:378-399 | all workers blocked, no half-done post, eventfd at 0: nothing is queued and every task is finished or asleep with all its notifies answered |
| WakeTheorems.WorkWakesAWorker | src/evloop/threadpool/mod.rs:384-398 | all workers blocked and a task due: it is in the channel, and a write or a delivery to any worker is possible |
| WakeTheorems.InterestLifeCycle | src/epoll/mod.rs:418-437 | an interest is in the table of its fd, and in no other, exactly until it is fired and removed |
| WakeTheorems.ArmedAgreement | src/epoll/mod.rs:365-443 | a non-empty table is armed with exactly the union of its masks or has a delivery to be handled; if armed and unlocked, it is that union |
| WakeTheorems.ToldOrToCome | src/epoll/mod.rs:424-426 | an interest has made its one notify, or is unfired and listed, or has a handler about to notify; exactly one of these |
| WakeTheorems.EndToEndWake | src/epoll/mod.rs:402-426 | a task asleep on an interest it saw unfired: the wake is still to come, with the task in the slot, if and only if the interest has told nobody and no other task has taken its place; the interest has never told this task; both conditions hold if only its maker polled it |
| WakeTheorems.SleepersAreArmed | src/epoll/mod.rs:376-443 | with the pool quiet, the kernel is armed for what a sleeping task waits on if and only if that interest has told nobody, and for this task if moreover it is in the slot |
| WakeTheorems.ReferencesConserved | src/evloop/threadpool/mod.rs:184-192 | the strong count is channel pointers, deque entries, active polls and handles; at 0 nobody has the task |
| WakeTheorems.NoUseAfterFree | src/evloop/threadpool/mod.rs:309-325 | every task a step touches through a pointer or handle is still referenced |
| WakeTheorems.SpawnedInOrder | src/evloop/threadpool/mod.rs:431-438 | every spawned task goes through the channel exactly once, in spawn order |
| WakeRest.InternalStepWorks | src/evloop/threadpool/mod.rs:378-399 | every step the threads take on their own lowers a work measure |
| WakeRest.EveryScheduleStops | src/evloop/threadpool/mod.rs:378-399 | without new input every schedule is over within the measure of its start |
| WakeRest.RestIsQuiescence | src/evloop/threadpool/mod.rs:384-398 | when no thread can step, all workers are blocked, no post is half done and the eventfd is at 0 |
| WakeBounds.FedScheduleStops | src/epoll/mod.rs:418-442 | schedules that also contain deliveries hitting somebody are over within a bound fixed at their start |
| WakeLives.FiredStep | src/epoll/mod.rs:424-426 | a step sets the flag of the interest it fires, which was clear, and of no other; no step clears a flag |
| WakeLives.InterestLife | src/epoll/mod.rs:402-437 | over every run, `fired` is stored once for an interest that ends up fired and never otherwise, with one notify for it |
| WakeLives.SpentInterestIsSilent | src/epoll/net.rs:78-79 | a limit: after its firing and notify, no continuation notifies for an interest again |
| WakeLives.MovedFutureLosesWake | src/epoll/mod.rs:406-413 | a limit: a task overtaken between its look at another task's interest and its registration goes to sleep on it, and no continuation notifies for that interest |
| WakeLedger.TaskRecord | src/evloop/threadpool/mod.rs:286-326 | over every run: what a task waits on is what it made or saw unfired since its latest poll began, its log is the accesses in the order they were made, its handles are those handed out and not taken back |
| WakeLedger.InterestRecord | src/epoll/mod.rs:376-437 | over every run: who made an interest, who registered last, whether it fired, whom it told, and whether it was dropped |
| WakeLedger.ArmingRecord | src/epoll/mod.rs:376-443 | over every run: the kernel is armed by an interest that asks for more and by a handler that leaves somebody in the table, for exactly what those ask for, and disarmed by a delivery |
| WakeLedger.MovedRecord | src/epoll/mod.rs:406-413 | an interest counts as moved if and only if another task than its maker has polled it |
| WakeLedger.ShutdownRecord | src/evloop/threadpool/mod.rs:378-399 | over every run: active until somebody shuts down, and a worker has exited if and only if it came to the top of its loop after that |
| WakeLedger.OwnerMay | src/evloop/threadpool/mod.rs:308-325 | in every reachable state a handle can be cloned, notified through and, outside slots and notifies under way, dropped |
| WakeLedger.FutureMay | src/epoll/mod.rs:376-413 | in every reachable state a future in its poll may use every unlocked fd and every interest that is there |
| WakeReports.ReportedIffToCome | src/epoll/mod.rs:418-442 | in a pool not shut down, some continuation notifies for an interest if and only if it is unfired and listed or about to notify |
| WakeSleepers.TellingsToSlot | src/epoll/mod.rs:398-413 | as long as nobody registers on an interest, each of its notifies goes to the task in its slot |
| WakeSleepers.ToldIffInSlot | src/epoll/mod.rs:398-426 | in a pool not shut down, some continuation without a registration on the interest notifies a task for it if and only if the interest has told nobody and the task is in its slot |
| WakeSleepers.SleeperIsWokenIff | src/epoll/mod.rs:402-426 | the same for a sleeper; one whose place is taken is told by no continuation while it sleeps, whoever registers |
| WakeSleepers.ReleasedForGood | src/evloop/threadpool/mod.rs:316-320 | a task whose last reference is gone is never polled or notified again |
| WakeScenario.SomeWakeIsLost | src/epoll/mod.rs:406-413 | a limit, reached from a fresh pool: a task asleep at level 0 on an interest that told another task, with no notify in any continuation |
| WakeScenario.SomeSleeperIsReplaced | src/epoll/mod.rs:398-413 | a limit, reached from a fresh pool: a task asleep on an unfired interest that another task has registered on since; its last reference is gone and no continuation touches it |
| WakeScenario.SomeOutsideNotifyLosesATask | src/evloop/threadpool/mod.rs:309-324 | a limit, reached from a fresh pool: a sleeping task that a notify from outside loses |
| WakeLives.OutsideNotify | src/evloop/threadpool/mod.rs:309-324 | a notify from a thread that is no worker keeps the invariant if and only if the task is above level 0; at level 0 it loses the task |
| WakeLives.LostForGood | src/evloop/threadpool/mod.rs:309-324 | a lost task is never polled again, in any continuation |
| RunLoop.Accounting | src/queue.rs:84-97 | polls begun are one plus interrupts begun, less one if `notified` is set |
| RunLoop.WaitingNotified | src/epoll/mod.rs:245-258 | waiting with `notified` set: the notify came after this reset, and its interrupt is still to act or acted before the wait |
| RunLoop.DispatchNotifyIsConsumed | src/queue.rs:35-44 | a notify between the end of a wait and the next reset is consumed by that reset |
| RunLoop.NotifyIsHeard | src/queue.rs:36-44 | a notify that acts at once makes the runner poll again, unaided, if and only if it is made outside the stretch from the poll to the wait |
| RunLoop.SelfNotifyHangs | src/queue.rs:36-44 | a limit: a future that notifies itself and stays pending leaves the runner blocked with `notified` set |
| RunLoop.StuckIffNothingInFlight | src/epoll/mod.rs:188-198 | a runner waiting with `notified` set polls again, with nothing new from outside, if and only if some interrupt is in flight |
| RunLoop.EventsAreDispatched | src/epoll/mod.rs:286-293 | in every run a wait that has ended is followed by a dispatch before the next reset if events ended it, and by none if a signal did |
| RunLoop.Runner.Run | src/queue.rs:31-45 | for all interference: an iteration polls if and only if it is the first or a notify was made in the one before, in its poll, its turn, or the handlers of the events that ended its wait; true exactly if the last poll was ready; blocked only if no event came |
| RunLoop.Runner.Reset | src/queue.rs:84-87 | true exactly if a poll is owed, the first or one for the latest interrupt, and then none is |
| RunLoop.Runner.Notify | src/queue.rs:90-97 | afterwards a poll is owed, and exactly the call that makes it so interrupts |
| NetFutures.FilledContents | src/epoll/net.rs:223-249 | the received bytes are in front, old bytes beyond are kept, the length is the larger of the two |
| NetFutures.TcpRead.Poll | src/epoll/net.rs:216-256 | the bytes received are as many as were asked for, fit, or were there; an error is the error of `recv`; pending changes neither buffer nor stream and leaves the task in the slot of the read's one interest; the kept interest is listed and unfired if and only if this poll did not find it fired; over means given up for good; a second poll panics |
| SpentReads.SecondReadIsStranded | src/epoll/net.rs:233-238 | a limit: of two reads woken by one byte the second stays pending on a fired, delisted interest, its latest poller in the slot, while later data stays unread and later deliveries fire every other read started on the stream |
| StreamReads.Conservation | src/epoll/net.rs:216-256 | for any interleaving of reads, arrivals and events, the bytes handed out are, in order, a prefix of what came in, and the rest is still there |
| StreamReads.PollOne | src/epoll/net.rs:216-256 | one poll of one of many reads: its bytes or its error, its new interest and the arming for it, and no change of the other reads |
| StreamReads.ReportEvents | src/epoll/mod.rs:416-443 | an event the arming allows wakes exactly the waiting reads if it hits READ, and leaves armed what is still asked for |
| StreamReads.Drive | src/epoll/net.rs:216-256 | the reads that are over, the chunks and errors they handed out, what is left and what is armed are a function of the steps and the start |
| Overlapped.StepKeepsInv | src/iocp/mod.rs:112-147 | every step of futures, kernel and dequeuing threads keeps counts, queue and hands in agreement |
| Overlapped.OwnershipConserved | src/iocp/mod.rs:136-147 | the strong count is the future's handles, one for an operation not yet dequeued, one for a thread that has it; released exactly when all are gone |
| Overlapped.SubmittedOnce | src/iocp/net.rs:412-437 | each future submits at most one operation, whose reference is taken back at most once, and only after |
| Overlapped.NoUseAfterFree | src/iocp/mod.rs:219-224 | no step of a thread or of the kernel finds the task released |
| Overlapped.CompletionWakes | src/iocp/net.rs:424-433 | a waiting future has its completion still to be notified, or has been notified since it registered |
| Overlapped.OverlappedTask.ForOperation | src/iocp/mod.rs:136-147 | on success the clone's reference stays with the operation, on failure it is dropped |
| Overlapped.SocketFuture.Poll | src/iocp/net.rs:412-437 | each branch with the exact count it leaves and the polling task registered; a poll after the end panics |
| Overlapped.SocketFuture.Drop | src/iocp/net.rs:394-405 | a pending future gives up its handle whether or not the cancellation succeeds, and leaks the buffer exactly if it does not |
| Overlapped.WokenRecord | src/iocp/mod.rs:219-224 | a task counts as woken if and only if it was notified since it last registered |
| Overlapped.PortIsEmptied | src/iocp/mod.rs:216-224 | when no thread can dequeue, notify or release, the port is empty, nobody has a completion in hand, and every submitted operation is in the kernel or reclaimed with its future notified |
| Overlapped.RestHasNoLeak | src/iocp/mod.rs:136-147 | when only new polls, drops and the kernel can move anything, every future is before its first poll, waits or is over, and what is over and not in the kernel is released |
| Overlapped.EveryScheduleStops | src/iocp/mod.rs:181-228 | schedules of those inner steps are over within a bound fixed at their start |
| Overlapped.PlaceIff | src/iocp/mod.rs:136-147 | submitted, completed and reclaimed, told from the events alone: a first poll that submits, a completion after it, a dequeuing after that |
| Overlapped.LiveThrough | src/iocp/mod.rs:219-224 | for every order of polls, completion, dequeuing and dropping, the future, the operation, the task notified and the count are where the events put them; released exactly when the future is over and nothing is with kernel or port |

## Left out

Assumptions of the model:

- Memory is sequentially consistent; `signal_level`, the eventfd and reference counts do not wrap or overflow.
- `epoll_ctl` succeeds; a MOD re-checks readiness, so what is ready is reported again; a one-shot delivery disarms.  The error returns of `add_interest`, `register_fd` and `post_custom_event` are not modelled.
- Registrations and custom events live as long as the pool, so the weak pointer of a delivered event always upgrades.
- `AtomicTask` is an atomic slot that keeps the handle it is notifying through; it is not emptied by a notify.
- The handle in an interest's slot goes with the last reference to the interest, at some point after the interest has fired and left its table; a future that is dropped earlier just stops polling.
- One call of `epoll_wait` fills its buffer of 32 one event at a time, so that other threads may act in between.
- A root future that fails, and a handler that panics, end the process; neither has a step.
- SIGUSR2 is sent by the interrupt only, and by then its handler is installed.

What the repository does and the model does not:

- Local tasks: polling the local queue is one phase of the worker in which user code runs; `notify` on a suspended local task is `unimplemented!()`.
- `stop`, `run_future`, `spawn_locked`: unimplemented in the source.  Shutdown is the flag only; nothing wakes a blocked worker, so no statement says that workers exit.
- The `workers` vector and the joining of threads: pushed and `swap_remove`d once a worker, nothing else reads it.
- `Accept`, `Connect`, `TcpWrite`, `RecvFrom` and `SendTo` on epoll: the same wait-and-register skeleton as the read future around another system call.
- `Accept`, `Connect`, `RecvFrom` and `SendTo` on completion ports, which hand over their reference as the modelled futures do; the lifetime of buffers after a cancellation, and the checks for inline buffers.
- Custom events on completion ports: the port hands their data to the handler without any state of its own.
- Timeouts, chaining of signal handlers, addresses, socket creation, logging, the tokio adapter and the trait plumbing.
- The worker loop of the pool is part of the step system of `WakeSystem`, not a class: its threads share every object, and a method would fix the points at which they interleave.

Members stated weaker than one might expect:

- WakeReports.ReportedIffToCome: is about pools that have a worker and were not shut down; after a shutdown workers may exit with events unhandled.
- WakeTheorems.WorkWakesAWorker: says that a write or a delivery is possible, not that the kernel makes it.
- WakeSystem.Enabled: a notify from a thread that is no worker is a step only above level 0; at level 0 the source panics, and `OutsideNotify` says what that leaves behind.
- WakeSystem.AddInterestStep: takes non-empty masks only, as all callers in the repository do; `FuturesRegistration.AddInterest` has no such restriction and states when an empty mask is harmless.
- RunLoop.Runner.Run: stops after the given iterations, because the loop of the source need not end.
