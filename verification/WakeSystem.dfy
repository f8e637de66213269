/**
  The thread pool composed with the custom-event channel and the interest tables: how work reaches a worker, goes
  to sleep, and is woken again (src/evloop/threadpool/mod.rs, src/epoll/mod.rs).

  A step system under sequential consistency.  Every atomic access of the source is one action of one thread;
  the actions of different threads interleave freely.  What is not decided by the code (what the kernel reports,
  what a future does inside its poll, who drops which handle) is a parameter of the action.
*/
module WakeSystem {
  import opened Prelude
  import opened Interests
  import opened TaskProtocol
  import Ch = CustomEvents

  type TaskId = nat
  type Fd = nat
  type InterestId = nat

  /** One element of the event buffer of `epoll_wait`. */
  datatype Delivery = Custom | OnFd(fd: Fd, word: Mask)

  const EVENT_BUFFER_SIZE := 32

  /** What a worker thread is about to do; `batch` are the events of its last `epoll_wait` still to dispatch. */
  datatype Activity =
    | AtTop                                                // the loop test on `active`
    | LocalWork                                            // polling tasks of the local queue
    | Stealing                                             // the loop over the worker's own deque
    | AtLoad(task: TaskId)                                 // do_poll entered
    | AtBegin(task: TaskId, seen: nat)                     // init_signal_level known, poll not entered
    | InPoll(task: TaskId, seen: nat)
    | AtSwap(task: TaskId, seen: nat)                      // NotReady returned, compare_exchange to come
    | Waiting(blocking: bool, batch: seq<Delivery>)        // inside epoll_wait
    | Dispatching(batch: seq<Delivery>)
    | InChannel(batch: seq<Delivery>)                      // CustomEventRegistrationHandler::handle_event
    | AtLock(fd: Fd, word: Mask, batch: seq<Delivery>)     // FuturesRegistrationHandler::handle_event
    | Sweeping(fd: Fd, word: Mask, i: nat, rem: Option<Mask>, batch: seq<Delivery>)
    | AtFire(fd: Fd, word: Mask, i: nat, rem: Option<Mask>, iid: InterestId, batch: seq<Delivery>)    // `fired` stored
    | AtRemove(fd: Fd, word: Mask, i: nat, rem: Option<Mask>, iid: InterestId, batch: seq<Delivery>)  // notified
    | Exited

  /** `pending` is the task of a notify of this thread that found level 0 and has not pushed it yet. */
  datatype Worker = Worker(pc: Activity, deque: seq<TaskId>, pending: Option<TaskId>)

  /** The interest table of an fd, its mutex, and the kernel's one-shot arming. */
  datatype Table = Table(lock: Option<nat>, list: seq<Entry<InterestId>>, armed: Option<Mask>)

  /**
    A future's interest; `maker` is the task whose poll created it, `told` whom its one notify went to, and `gone`
    says that table and future have both dropped it.
  */
  datatype Interest = Interest(
    fd: Fd, mask: Mask, fired: bool, slot: TaskId, maker: TaskId, told: Option<TaskId>, gone: bool)

  /**
    `handles` counts the notify handles in existence, those in interest slots included.  `moved` are the
    interests that were polled by another task than the one that created them.
  */
  datatype System = System(
    active: bool,
    tasks: seq<Task>,
    workers: seq<Worker>,
    channel: Ch.Chan,
    tables: seq<Table>,
    interests: seq<Interest>,
    handles: multiset<TaskId>,
    moved: set<nat>)

  datatype Action =
    // any thread: spawn_future pushes the task's pointer, then writes the eventfd
    | SpawnPush | SpawnWrite
    // the worker loop
    | CheckActive(w: nat) | LocalDone(w: nat) | Steal(w: nat) | StealEmpty(w: nat) | StealInconsistent(w: nat)
    // do_poll
    | LoadLevel(w: nat) | BeginPoll(w: nat) | PollPending(w: nat) | PollReady(w: nat) | Swap(w: nat)
    // notify, and the handles it is called through
    | Notify(w: nat, t: TaskId) | PushNotified(w: nat) | ForeignNotify(t: TaskId)
    | CloneOwn(w: nat) | CloneHandle(t: TaskId) | DropHandle(t: TaskId)
    // epoll_wait and dispatch
    | DeliverChannel(w: nat) | DeliverFd(w: nat, fd: Fd, word: Mask) | ReturnFromWait(w: nat) | Dispatch(w: nat)
    // the custom-event handler
    | ReadCount(w: nat) | PopDatum(w: nat) | RearmChannel(w: nat)
    // fds and interests: from inside a poll, and the handler
    | OpenFd | AddInterest(w: nat, fd: Fd, mask: Mask) | CheckInterest(w: nat, iid: InterestId)
    | RegisterInterest(w: nat, iid: InterestId) | DropInterest(iid: InterestId)
    | TakeLock(w: nat) | SweepNext(w: nat) | FireNotify(w: nat) | RemoveFired(w: nat)
    | Shutdown

  /** `with_concurrency(n)`: the channel exists and is armed, `n` workers are at the top of their loop. */
  function Init(n: nat): System
  {
    System(true, [], seq(n, _ => Worker(AtTop, [], None)),
           Ch.OPEN_CHANNEL, [], [], multiset{}, {})
  }

  // ---------------------------------------------------------------------------------------------------------
  // Steps

  /** `w` is a worker free to take its next step: it is not in the middle of a notify. */
  predicate Free(s: System, w: nat) { w < |s.workers| && s.workers[w].pending == None }

  /** Code of the application or of other handlers runs here, and may notify any task it has a handle to. */
  predicate RunsUserCode(pc: Activity) { pc.LocalWork? || pc.InPoll? || pc.Dispatching? }

  predicate InPollOf(s: System, w: nat) { Free(s, w) && s.workers[w].pc.InPoll? && s.workers[w].pc.task < |s.tasks| }

  predicate Enabled(s: System, a: Action)
  {
    match a
    case SpawnPush => Ch.Enabled(s.channel, Ch.Push(|s.tasks|))
    case SpawnWrite => Ch.Enabled(s.channel, Ch.Write)
    case CheckActive(w) => Free(s, w) && s.workers[w].pc.AtTop?
    case LocalDone(w) => Free(s, w) && s.workers[w].pc.LocalWork?
    case Steal(w) => Free(s, w) && s.workers[w].pc.Stealing? && s.workers[w].deque != []
    case StealEmpty(w) => Free(s, w) && s.workers[w].pc.Stealing? && s.workers[w].deque == []
    case StealInconsistent(w) => Free(s, w) && s.workers[w].pc.Stealing?
    case LoadLevel(w) => Free(s, w) && s.workers[w].pc.AtLoad? && s.workers[w].pc.task < |s.tasks|
    case BeginPoll(w) => Free(s, w) && s.workers[w].pc.AtBegin? && s.workers[w].pc.task < |s.tasks|
    case PollPending(w) => InPollOf(s, w)
    case PollReady(w) => InPollOf(s, w)
    case Swap(w) => Free(s, w) && s.workers[w].pc.AtSwap? && s.workers[w].pc.task < |s.tasks|
    case Notify(w, t) => Free(s, w) && RunsUserCode(s.workers[w].pc) && t < |s.tasks| && s.handles[t] > 0
    case PushNotified(w) => w < |s.workers| && s.workers[w].pending.Some? && s.workers[w].pending.value < |s.tasks|
    case ForeignNotify(t) => t < |s.tasks| && s.handles[t] > 0 && s.tasks[t].level > 0
    case CloneOwn(w) => InPollOf(s, w)
    case CloneHandle(t) => t < |s.tasks| && s.handles[t] > 0
    // a handle in a slot, or one a notify is being called through, is not there to be dropped
    case DropHandle(t) =>
      && t < |s.tasks| && s.handles[t] > Total(s.interests, SlotCount, t)
      && s.handles[t] > Total(s.workers, PendingCount, t)
    case DeliverChannel(w) =>
      && Free(s, w) && s.workers[w].pc.Waiting? && |s.workers[w].pc.batch| < EVENT_BUFFER_SIZE
      && Ch.Enabled(s.channel, Ch.Deliver(w))
    case DeliverFd(w, f, word) =>
      && Free(s, w) && s.workers[w].pc.Waiting? && |s.workers[w].pc.batch| < EVENT_BUFFER_SIZE
      && f < |s.tables| && s.tables[f].armed.Some? && Reportable(s.tables[f].armed.value, word)
    case ReturnFromWait(w) =>
      Free(s, w) && s.workers[w].pc.Waiting? && (s.workers[w].pc.batch != [] || !s.workers[w].pc.blocking)
    case Dispatch(w) => Free(s, w) && s.workers[w].pc.Dispatching?
    case ReadCount(w) => Free(s, w) && s.workers[w].pc.InChannel? && Ch.Enabled(s.channel, Ch.ReadCount(w))
    case PopDatum(w) => Free(s, w) && s.workers[w].pc.InChannel? && Ch.Enabled(s.channel, Ch.Pop(w))
    case RearmChannel(w) => Free(s, w) && s.workers[w].pc.InChannel? && Ch.Enabled(s.channel, Ch.Rearm(w))
    case OpenFd => true
    case AddInterest(w, f, mask) => InPollOf(s, w) && f < |s.tables| && s.tables[f].lock == None && mask != {}
    case CheckInterest(w, iid) => InPollOf(s, w) && iid < |s.interests| && !s.interests[iid].gone
    // AtomicTask does not give up the handle of a task it is notifying
    case RegisterInterest(w, iid) =>
      && InPollOf(s, w) && iid < |s.interests| && !s.interests[iid].gone && s.interests[iid].slot < |s.tasks|
      && (s.interests[iid].slot == s.workers[w].pc.task
          || s.handles[s.interests[iid].slot] > Total(s.workers, PendingCount, s.interests[iid].slot))
    // fired, out of its table, and dropped by its future: the handle in the slot goes
    case DropInterest(iid) =>
      && iid < |s.interests| && s.interests[iid].fired && !s.interests[iid].gone && Total(s.workers, WindowCount, iid) == 0
      && s.interests[iid].slot < |s.tasks|
      && s.handles[s.interests[iid].slot] > Total(s.workers, PendingCount, s.interests[iid].slot)
    case TakeLock(w) =>
      && Free(s, w) && s.workers[w].pc.AtLock? && s.workers[w].pc.fd < |s.tables|
      && s.tables[s.workers[w].pc.fd].lock == None
    case SweepNext(w) =>
      && Free(s, w) && s.workers[w].pc.Sweeping? && s.workers[w].pc.fd < |s.tables|
      && (forall k :: 0 <= k < |s.tables[s.workers[w].pc.fd].list| ==>
            s.tables[s.workers[w].pc.fd].list[k].who < |s.interests|)
    case FireNotify(w) =>
      && Free(s, w) && s.workers[w].pc.AtFire? && s.workers[w].pc.iid < |s.interests|
      && s.interests[s.workers[w].pc.iid].slot < |s.tasks|
    case RemoveFired(w) =>
      && Free(s, w) && s.workers[w].pc.AtRemove? && s.workers[w].pc.fd < |s.tables|
      && s.workers[w].pc.i < |s.tables[s.workers[w].pc.fd].list|
    case Shutdown => true
  }

  function SetWorker(s: System, w: nat, k: Worker): System
    requires w < |s.workers|
  {
    s.(workers := s.workers[w := k])
  }

  function Go(s: System, w: nat, pc: Activity): System
    requires w < |s.workers|
  {
    SetWorker(s, w, s.workers[w].(pc := pc))
  }

  function SetTask(s: System, t: TaskId, k: Task): System
    requires t < |s.tasks|
  {
    s.(tasks := s.tasks[t := k])
  }

  function SetTable(s: System, f: Fd, d: Table): System
    requires f < |s.tables|
  {
    s.(tables := s.tables[f := d])
  }

  function AddHandle(h: multiset<TaskId>, t: TaskId): multiset<TaskId> { h[t := h[t] + 1] }

  function RemoveHandle(h: multiset<TaskId>, t: TaskId): multiset<TaskId> { if h[t] > 0 then h[t := h[t] - 1] else h }

  function AddRef(tasks: seq<Task>, t: TaskId, d: int): seq<Task>
    requires t < |tasks|
  {
    tasks[t := tasks[t].(strong := tasks[t].strong + d)]
  }

  /** The fetch_add of a notify by worker `w`, who has to push the task if the level was 0. */
  function NotifyBy(s: System, w: nat, t: TaskId): System
    requires w < |s.workers| && t < |s.tasks|
  {
    SetTask(SetWorker(s, w, s.workers[w].(pending := if s.tasks[t].level == 0 then Some(t) else None)),
            t, NotifyTask(s.tasks[t]))
  }

  function DropRef(k: Task): Task { k.(strong := k.strong - 1) }

  function GainHandle(s: System, t: TaskId): System
    requires t < |s.tasks|
  {
    s.(tasks := AddRef(s.tasks, t, 1), handles := AddHandle(s.handles, t))
  }

  /** compare_exchange(init_signal_level, 0): asleep on success, else poll on with the level found. */
  function SwapStep(s: System, w: nat): System
    requires Enabled(s, Swap(w))
  {
    var t := s.workers[w].pc.task;
    if s.tasks[t].level == s.workers[w].pc.seen then Go(SetTask(s, t, DropRef(SleepTask(s.tasks[t]))), w, Stealing)
    else Go(SetTask(s, t, LoadTask(s.tasks[t])), w, AtBegin(t, s.tasks[t].level))
  }

  /** try_pop; `handle_remote_spawn` puts the task on the deque of the worker that runs the handler. */
  function PopStep(s: System, w: nat): System
    requires Enabled(s, PopDatum(w))
  {
    var q := s.channel.queue;
    (if q == [] then s else SetWorker(s, w, s.workers[w].(deque := s.workers[w].deque + [q[0]])))
    .(channel := Ch.Apply(s.channel, Ch.Pop(w)))
  }

  /** The table after `add_interest`. */
  function Listed(d: Table, mask: Mask, iid: InterestId): Table
  {
    d.(list := d.list + [Entry(mask, iid)],
       armed := if mask <= Union(d.list) then d.armed else Some(Union(d.list) + mask))
  }

  /** `add_interest`, its locked section. */
  function AddInterestStep(s: System, w: nat, f: Fd, mask: Mask): System
    requires Enabled(s, AddInterest(w, f, mask))
  {
    var t, d, iid := s.workers[w].pc.task, s.tables[f], |s.interests|;
    var s1 := GainHandle(s, t);
    SetTask(SetTable(s1, f, Listed(d, mask, iid)), t, s1.tasks[t].(waits := s1.tasks[t].waits + {iid}))
    .(interests := s.interests + [Interest(f, mask, false, t, t, None, false)])
  }

  /** Task `t` polls interest `iid`. */
  function Stray(moved: set<InterestId>, interests: seq<Interest>, iid: InterestId, t: TaskId): set<InterestId>
    requires iid < |interests|
  {
    if interests[iid].maker == t then moved else moved + {iid}
  }

  /** `FutureInterest::poll`, the read of `fired`. */
  function CheckInterestStep(s: System, w: nat, iid: InterestId): System
    requires Enabled(s, CheckInterest(w, iid))
  {
    var t := s.workers[w].pc.task;
    (if s.interests[iid].fired then s else SetTask(s, t, s.tasks[t].(waits := s.tasks[t].waits + {iid})))
    .(moved := Stray(s.moved, s.interests, iid, t))
  }

  /** `register`: the current task goes into the slot, the handle that was there is dropped. */
  function RegisterInterestStep(s: System, w: nat, iid: InterestId): System
    requires Enabled(s, RegisterInterest(w, iid))
  {
    var t, was := s.workers[w].pc.task, s.interests[iid].slot;
    s.(interests := s.interests[iid := s.interests[iid].(slot := t)],
       tasks := AddRef(AddRef(s.tasks, t, 1), was, -1),
       handles := RemoveHandle(AddHandle(s.handles, t), was),
       moved := Stray(s.moved, s.interests, iid, t))
  }

  /** The last reference to an interest goes, and with it the handle in its slot. */
  function DropInterestStep(s: System, iid: InterestId): System
    requires Enabled(s, DropInterest(iid))
  {
    var t := s.interests[iid].slot;
    s.(interests := s.interests[iid := s.interests[iid].(gone := true)],
       tasks := AddRef(s.tasks, t, -1), handles := RemoveHandle(s.handles, t))
  }

  /** The loop of `handle_event`: fire the entry, pass over it, or re-arm and unlock at the end. */
  function SweepStep(s: System, w: nat): System
    requires Enabled(s, SweepNext(w))
  {
    var p := s.workers[w].pc;
    var d := s.tables[p.fd];
    if p.i < |d.list| then
      var e := d.list[p.i];
      if Hit(e.mask, p.word) then
        Go(s, w, AtFire(p.fd, p.word, p.i, p.rem, e.who, p.batch))
        .(interests := s.interests[e.who := s.interests[e.who].(fired := true)])
      else
        Go(s, w, Sweeping(p.fd, p.word, p.i + 1, OrIn(p.rem, e.mask), p.batch))
    else
      Go(SetTable(s, p.fd, d.(lock := None, armed := if p.rem.Some? then p.rem else d.armed)), w, Dispatching(p.batch))
  }

  function LoadStep(s: System, w: nat): System
    requires Enabled(s, LoadLevel(w))
  {
    var t := s.workers[w].pc.task;
    Go(SetTask(s, t, LoadTask(s.tasks[t])), w, AtBegin(t, s.tasks[t].level))
  }

  function BeginStep(s: System, w: nat): System
    requires Enabled(s, BeginPoll(w))
  {
    var t := s.workers[w].pc.task;
    Go(SetTask(s, t, BeginTask(s.tasks[t])), w, InPoll(t, s.workers[w].pc.seen))
  }

  function PendingStep(s: System, w: nat): System
    requires Enabled(s, PollPending(w))
  {
    var t := s.workers[w].pc.task;
    Go(SetTask(s, t, EndTask(s.tasks[t])), w, AtSwap(t, s.workers[w].pc.seen))
  }

  /** The future is done: do_poll breaks out of its loop and drops its reference. */
  function ReadyStep(s: System, w: nat): System
    requires Enabled(s, PollReady(w))
  {
    var t := s.workers[w].pc.task;
    Go(SetTask(s, t, DropRef(FinishTask(s.tasks[t]))), w, Stealing)
  }

  /** The rest of a notify that found 0: clone the Arc, push the clone on the own deque. */
  function PushNotifiedStep(s: System, w: nat): System
    requires Enabled(s, PushNotified(w))
  {
    var k := s.workers[w];
    SetWorker(s, w, Worker(k.pc, k.deque + [k.pending.value], None)).(tasks := AddRef(s.tasks, k.pending.value, 1))
  }

  function StealStep(s: System, w: nat): System
    requires Enabled(s, Steal(w))
  {
    var k := s.workers[w];
    SetWorker(s, w, Worker(AtLoad(k.deque[0]), k.deque[1..], k.pending))
  }

  function DeliverChannelStep(s: System, w: nat): System
    requires Enabled(s, DeliverChannel(w))
  {
    var p := s.workers[w].pc;
    Go(s, w, Waiting(p.blocking, p.batch + [Custom])).(channel := Ch.Apply(s.channel, Ch.Deliver(w)))
  }

  function DeliverFdStep(s: System, w: nat, f: Fd, word: Mask): System
    requires Enabled(s, DeliverFd(w, f, word))
  {
    var p := s.workers[w].pc;
    Go(SetTable(s, f, s.tables[f].(armed := None)), w, Waiting(p.blocking, p.batch + [OnFd(f, word)]))
  }

  function DispatchStep(s: System, w: nat): System
    requires Enabled(s, Dispatch(w))
  {
    var batch := s.workers[w].pc.batch;
    Go(s, w, if batch == [] then AtTop
             else if batch[0].Custom? then InChannel(batch[1..])
             else AtLock(batch[0].fd, batch[0].word, batch[1..]))
  }

  function TakeLockStep(s: System, w: nat): System
    requires Enabled(s, TakeLock(w))
  {
    var p := s.workers[w].pc;
    Go(SetTable(s, p.fd, s.tables[p.fd].(lock := Some(w))), w, Sweeping(p.fd, p.word, 0, None, p.batch))
  }

  function FireNotifyStep(s: System, w: nat): System
    requires Enabled(s, FireNotify(w))
  {
    var p := s.workers[w].pc;
    var x := s.interests[p.iid];
    Go(NotifyBy(s, w, x.slot), w, AtRemove(p.fd, p.word, p.i, p.rem, p.iid, p.batch))
    .(interests := s.interests[p.iid := x.(told := Some(x.slot))])
  }

  function RemoveFiredStep(s: System, w: nat): System
    requires Enabled(s, RemoveFired(w))
  {
    var p := s.workers[w].pc;
    Go(SetTable(s, p.fd, s.tables[p.fd].(list := SwapRemove(s.tables[p.fd].list, p.i))),
       w, Sweeping(p.fd, p.word, p.i, p.rem, p.batch))
  }

  /** `spawn_future`: a task at level 1, its pointer pushed on the channel. */
  function SpawnPushStep(s: System): System
    requires Enabled(s, SpawnPush)
  {
    s.(tasks := s.tasks + [SPAWNED], channel := Ch.Apply(s.channel, Ch.Push(|s.tasks|)))
  }

  function SpawnWriteStep(s: System): System
    requires Enabled(s, SpawnWrite)
  {
    s.(channel := Ch.Apply(s.channel, Ch.Write))
  }

  function CheckActiveStep(s: System, w: nat): System
    requires Enabled(s, CheckActive(w))
  {
    Go(s, w, if s.active then LocalWork else Exited)
  }

  function LocalDoneStep(s: System, w: nat): System
    requires Enabled(s, LocalDone(w))
  {
    Go(s, w, Stealing)
  }

  /** Steal::Empty: should_wait0 is false and the wait has no timeout. */
  function StealEmptyStep(s: System, w: nat): System
    requires Enabled(s, StealEmpty(w))
  {
    Go(s, w, Waiting(true, []))
  }

  /** Steal::Inconsistent: the wait has timeout 0. */
  function StealInconsistentStep(s: System, w: nat): System
    requires Enabled(s, StealInconsistent(w))
  {
    Go(s, w, Waiting(false, []))
  }

  function NotifyStep(s: System, w: nat, t: TaskId): System
    requires Enabled(s, Notify(w, t))
  {
    NotifyBy(s, w, t)
  }

  /** The fetch_add of `notify` on a thread without a queue, which panics if it finds 0. */
  function NotifyFromOutside(s: System, t: TaskId): System
    requires t < |s.tasks|
  {
    SetTask(s, t, NotifyTask(s.tasks[t]))
  }

  /** A notify from a thread that is no worker, on a task that is not suspended: the count goes up and that is all. */
  function ForeignNotifyStep(s: System, t: TaskId): System
    requires Enabled(s, ForeignNotify(t))
  {
    NotifyFromOutside(s, t)
  }

  /** The polled task hands out a notify handle of itself. */
  function CloneOwnStep(s: System, w: nat): System
    requires Enabled(s, CloneOwn(w))
  {
    GainHandle(s, s.workers[w].pc.task)
  }

  function CloneHandleStep(s: System, t: TaskId): System
    requires Enabled(s, CloneHandle(t))
  {
    GainHandle(s, t)
  }

  function DropHandleStep(s: System, t: TaskId): System
    requires Enabled(s, DropHandle(t))
  {
    s.(tasks := AddRef(s.tasks, t, -1), handles := RemoveHandle(s.handles, t))
  }

  function ReturnStep(s: System, w: nat): System
    requires Enabled(s, ReturnFromWait(w))
  {
    Go(s, w, Dispatching(s.workers[w].pc.batch))
  }

  function ReadCountStep(s: System, w: nat): System
    requires Enabled(s, ReadCount(w))
  {
    s.(channel := Ch.Apply(s.channel, Ch.ReadCount(w)))
  }

  function RearmChannelStep(s: System, w: nat): System
    requires Enabled(s, RearmChannel(w))
  {
    Go(s, w, Dispatching(s.workers[w].pc.batch)).(channel := Ch.Apply(s.channel, Ch.Rearm(w)))
  }

  predicate OfTasks(a: Action)
  {
    || a.LoadLevel? || a.BeginPoll? || a.PollPending? || a.PollReady? || a.Swap? || a.Notify? || a.PushNotified?
    || a.ForeignNotify? || a.CloneOwn? || a.CloneHandle? || a.DropHandle?
  }

  predicate OfInterests(a: Action)
  {
    || a.DeliverFd? || a.OpenFd? || a.AddInterest? || a.CheckInterest? || a.RegisterInterest? || a.DropInterest?
    || a.TakeLock? || a.SweepNext? || a.FireNotify? || a.RemoveFired?
  }

  function ApplyToTasks(s: System, a: Action): System
    requires Enabled(s, a) && OfTasks(a)
  {
    match a
    case LoadLevel(w) => LoadStep(s, w)
    case BeginPoll(w) => BeginStep(s, w)
    case PollPending(w) => PendingStep(s, w)
    case PollReady(w) => ReadyStep(s, w)
    case Swap(w) => SwapStep(s, w)
    case Notify(w, t) => NotifyStep(s, w, t)
    case PushNotified(w) => PushNotifiedStep(s, w)
    case ForeignNotify(t) => ForeignNotifyStep(s, t)
    case CloneOwn(w) => CloneOwnStep(s, w)
    case CloneHandle(t) => CloneHandleStep(s, t)
    case DropHandle(t) => DropHandleStep(s, t)
  }

  function ApplyToInterests(s: System, a: Action): System
    requires Enabled(s, a) && OfInterests(a)
  {
    match a
    case DeliverFd(w, f, word) => DeliverFdStep(s, w, f, word)
    case OpenFd => s.(tables := s.tables + [Table(None, [], Some({}))])
    case AddInterest(w, f, mask) => AddInterestStep(s, w, f, mask)
    case CheckInterest(w, iid) => CheckInterestStep(s, w, iid)
    case RegisterInterest(w, iid) => RegisterInterestStep(s, w, iid)
    case DropInterest(iid) => DropInterestStep(s, iid)
    case TakeLock(w) => TakeLockStep(s, w)
    case SweepNext(w) => SweepStep(s, w)
    case FireNotify(w) => FireNotifyStep(s, w)
    case RemoveFired(w) => RemoveFiredStep(s, w)
  }

  function ApplyToLoop(s: System, a: Action): System
    requires Enabled(s, a) && !OfTasks(a) && !OfInterests(a)
  {
    match a
    case SpawnPush => SpawnPushStep(s)
    case SpawnWrite => SpawnWriteStep(s)
    case CheckActive(w) => CheckActiveStep(s, w)
    case LocalDone(w) => LocalDoneStep(s, w)
    case Steal(w) => StealStep(s, w)
    case StealEmpty(w) => StealEmptyStep(s, w)
    case StealInconsistent(w) => StealInconsistentStep(s, w)
    case DeliverChannel(w) => DeliverChannelStep(s, w)
    case ReturnFromWait(w) => ReturnStep(s, w)
    case Dispatch(w) => DispatchStep(s, w)
    case ReadCount(w) => ReadCountStep(s, w)
    case PopDatum(w) => PopStep(s, w)
    case RearmChannel(w) => RearmChannelStep(s, w)
    case Shutdown => s.(active := false)
  }

  function Apply(s: System, a: Action): System
    requires Enabled(s, a)
  {
    if OfTasks(a) then ApplyToTasks(s, a) else if OfInterests(a) then ApplyToInterests(s, a) else ApplyToLoop(s, a)
  }

  predicate Legal(s: System, run: seq<Action>)
    decreases |run|
  {
    run == [] || (Enabled(s, run[0]) && Legal(Apply(s, run[0]), run[1..]))
  }

  function Exec(s: System, run: seq<Action>): System
    requires Legal(s, run)
    decreases |run|
  {
    if run == [] then s else Exec(Apply(s, run[0]), run[1..])
  }

  // ---------------------------------------------------------------------------------------------------------
  // What the threads hold, as counts

  function RunningTask(pc: Activity): Option<TaskId>
  {
    if pc.AtLoad? || pc.AtBegin? || pc.InPoll? || pc.AtSwap? then Some(pc.task) else None
  }

  function BatchOf(pc: Activity): seq<Delivery>
  {
    if pc.Waiting? || pc.Dispatching? || pc.InChannel? || HandlesFd(pc) then pc.batch else []
  }

  /** In `handle_event` of an fd, from waiting for its lock to releasing it. */
  predicate HandlesFd(pc: Activity) { pc.AtLock? || HoldsLock(pc) }
  predicate HoldsLock(pc: Activity) { pc.Sweeping? || pc.AtFire? || pc.AtRemove? }

  function RunCount(k: Worker, t: nat): nat { One(RunningTask(k.pc) == Some(t)) }

  /** Run tokens of `t` the worker has: deque entries, its active do_poll, its notify between fetch_add and push. */
  function TokenCount(k: Worker, t: nat): nat { Occurrences(k.deque, t) + RunCount(k, t) + PendingCount(k, t) }

  /** The worker's notify of `t` found level 0 and has not pushed it. */
  function PendingCount(k: Worker, t: nat): nat { One(k.pending == Some(t)) }

  /** References to `t` the worker owns. */
  function RefCount(k: Worker, t: nat): nat { Occurrences(k.deque, t) + RunCount(k, t) }

  function OnFdCount(batch: seq<Delivery>, f: nat): nat
  {
    if batch == [] then 0 else One(batch[0].OnFd? && batch[0].fd == f) + OnFdCount(batch[1..], f)
  }

  function CustomCount(batch: seq<Delivery>): nat
  {
    if batch == [] then 0 else One(batch[0].Custom?) + CustomCount(batch[1..])
  }

  /** Deliveries for fd `f` that the worker has received and not finished handling. */
  function DeliveryCount(k: Worker, f: nat): nat { OnFdCount(BatchOf(k.pc), f) + One(HandlesFd(k.pc) && k.pc.fd == f) }

  /** The worker has stored `fired` for `iid` and not yet notified. */
  function FiringCount(k: Worker, iid: nat): nat { One(k.pc.AtFire? && k.pc.iid == iid) }

  /** The worker has stored `fired` for `iid` and not yet removed it from the table. */
  function WindowCount(k: Worker, iid: nat): nat { One((k.pc.AtFire? || k.pc.AtRemove?) && k.pc.iid == iid) }

  function SlotCount(x: Interest, t: nat): nat { One(!x.gone && x.slot == t) }

  function Ids(list: seq<Entry<InterestId>>): seq<nat> { seq(|list|, i requires 0 <= i < |list| => list[i].who) }

  function ListedCount(d: Table, iid: nat): nat { Occurrences(Ids(d.list), iid) }
}
