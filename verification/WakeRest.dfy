/**
  The pool comes to rest.  Once the outside stops spawning, notifying and making fds ready, every schedule of the
  threads is finite, its length bounded beforehand, and it can only end with every worker blocked.
*/
module WakeRest {
  import opened Prelude
  import opened Interests
  import opened TaskProtocol
  import opened WakeSystem
  import opened WakeInvariant
  import opened WakeProofs
  import opened WakeInterestProofs
  import opened WakeTheorems
  import Ch = CustomEvents

  /**
    The steps the threads take on their own.  The others need the outside: a spawn, an application's notify or
    clone, readiness of an fd, a future's use of its interests, an inconsistent steal, shutdown.
  */
  predicate Internal(a: Action)
  {
    || a.SpawnWrite? || a.CheckActive? || a.LocalDone? || a.Steal? || a.StealEmpty?
    || a.LoadLevel? || a.BeginPoll? || a.PollPending? || a.PollReady? || a.Swap? || a.PushNotified?
    || a.DeliverChannel? || a.ReturnFromWait? || a.Dispatch? || a.ReadCount? || a.PopDatum? || a.RearmChannel?
    || a.TakeLock? || a.SweepNext? || a.FireNotify? || a.RemoveFired?
  }

  predicate InternalRun(run: seq<Action>) { forall i :: 0 <= i < |run| ==> Internal(run[i]) }

  // ---------------------------------------------------------------------------------------------------------
  // The work left

  function ListSize(tables: seq<Table>, f: nat): nat { if f < |tables| then |tables[f].list| else 0 }

  function BatchWork(tables: seq<Table>, batch: seq<Delivery>): nat
  {
    if batch == [] then 0 else
      BatchWork(tables, batch[..|batch| - 1])
      + match batch[|batch| - 1] case Custom => 3 case OnFd(f, _) => ListSize(tables, f) + 3
  }

  function SweepWork(tables: seq<Table>, f: nat, i: nat): nat
  {
    5 + if i <= ListSize(tables, f) then ListSize(tables, f) - i else 0
  }

  /** Steps from here to being blocked, a new token or a repoll not counted. */
  function PcWork(tables: seq<Table>, pc: Activity): nat
  {
    match pc
    case AtTop => 3
    case LocalWork => 2
    case Stealing => 1
    case AtLoad(_) => 7
    case AtBegin(_, _) => 6
    case InPoll(_, _) => 5
    case AtSwap(_, _) => 4
    case Waiting(blocking, batch) => (if blocking && batch == [] then 0 else 5) + BatchWork(tables, batch)
    case Dispatching(batch) => 4 + BatchWork(tables, batch)
    case InChannel(batch) => 5 + BatchWork(tables, batch)
    case AtLock(f, _, batch) => 6 + ListSize(tables, f) + BatchWork(tables, batch)
    case Sweeping(f, _, i, _, batch) => SweepWork(tables, f, i) + BatchWork(tables, batch)
    case AtFire(f, _, i, _, _, batch) => 10 + SweepWork(tables, f, i) + BatchWork(tables, batch)
    case AtRemove(f, _, i, _, _, batch) => 1 + SweepWork(tables, f, i) + BatchWork(tables, batch)
    case Exited => 0
  }

  function WorkerWork(tables: seq<Table>, k: Worker): nat
  {
    PcWork(tables, k.pc) + 7 * |k.deque| + if k.pending.Some? then 8 else 0
  }

  function WorkersWork(tables: seq<Table>, ws: seq<Worker>): nat
  {
    if ws == [] then 0 else WorkersWork(tables, ws[..|ws| - 1]) + WorkerWork(tables, ws[|ws| - 1])
  }

  /** A running task that was notified will be polled once more. */
  function TaskWork(k: Task, t: nat): nat { if InDoPoll(StageOf(k.log)) && NotifiesSinceLoad(k.log) > 0 then 4 else 0 }

  /** An unfired interest may still fire and notify. */
  function InterestWork(x: Interest, t: nat): nat { if x.fired then 0 else 11 }

  ghost function ChannelWork(c: Ch.Chan): nat
  {
    8 * |c.queue| + 11 * c.count + 12 * c.unwritten
    + if Ch.SomeAt(c, Ch.Draining) then 10 else if Ch.SomeAt(c, Ch.ToRead) then 0 else 9
  }

  ghost function Work(s: System): nat
  {
    WorkersWork(s.tables, s.workers) + ChannelWork(s.channel) + Total(s.tasks, TaskWork, 0) + Total(s.interests, InterestWork, 0)
  }

  lemma {:induction false} WorkersWorkSet(tables: seq<Table>, ws: seq<Worker>, w: nat, k: Worker)
    requires w < |ws|
    ensures WorkersWork(tables, ws[w := k]) + WorkerWork(tables, ws[w]) == WorkersWork(tables, ws) + WorkerWork(tables, k)
  {
    var last := |ws| - 1;
    if w < last {
      WorkersWorkSet(tables, ws[..last], w, k);
      assert ws[w := k][..last] == ws[..last][w := k];
    } else {
      assert ws[w := k][..last] == ws[..last];
    }
  }

  /** Tables only shrink, position by position. */
  ghost predicate Shrunk(tables: seq<Table>, tables': seq<Table>) { forall f: nat :: ListSize(tables', f) <= ListSize(tables, f) }

  lemma {:induction false} BatchWorkShrinks(tables: seq<Table>, tables': seq<Table>, batch: seq<Delivery>)
    requires Shrunk(tables, tables')
    ensures BatchWork(tables', batch) <= BatchWork(tables, batch)
  {
    if batch != [] { BatchWorkShrinks(tables, tables', batch[..|batch| - 1]); }
  }

  lemma WorkerWorkShrinks(tables: seq<Table>, tables': seq<Table>, k: Worker)
    requires Shrunk(tables, tables')
    ensures WorkerWork(tables', k) <= WorkerWork(tables, k)
  {
    BatchWorkShrinks(tables, tables', BatchOf(k.pc));
  }

  lemma {:induction false} WorkersWorkShrinks(tables: seq<Table>, tables': seq<Table>, ws: seq<Worker>)
    requires Shrunk(tables, tables')
    ensures WorkersWork(tables', ws) <= WorkersWork(tables, ws)
  {
    hide WorkerWork;
    if ws != [] {
      WorkersWorkShrinks(tables, tables', ws[..|ws| - 1]);
      WorkerWorkShrinks(tables, tables', ws[|ws| - 1]);
    }
  }

  lemma {:induction false} BatchWorkFront(tables: seq<Table>, batch: seq<Delivery>)
    requires batch != []
    ensures BatchWork(tables, batch) == BatchWork(tables, batch[1..])
                                        + match batch[0] case Custom => 3 case OnFd(f, _) => ListSize(tables, f) + 3
  {
    if |batch| > 1 {
      BatchWorkFront(tables, batch[..|batch| - 1]);
      assert batch[..|batch| - 1][1..] == batch[1..][..|batch| - 2];
    }
  }

  /** One worker moves and one task changes; the tables may shrink. */
  lemma MoveWorks(s: System, w: nat, k: Worker, t: nat, task: Task, tables': seq<Table>)
    requires w < |s.workers| && t < |s.tasks| && Shrunk(s.tables, tables')
    requires WorkerWork(tables', k) + TaskWork(task, 0) < WorkerWork(tables', s.workers[w]) + TaskWork(s.tasks[t], 0)
    ensures Work(s.(workers := s.workers[w := k], tasks := s.tasks[t := task], tables := tables')) < Work(s)
  {
    WorkersWorkShrinks(s.tables, tables', s.workers);
    WorkersWorkSet(tables', s.workers, w, k);
    TotalSet(s.tasks, t, task, TaskWork, 0);
  }

  /** One worker moves and nothing else. */
  lemma WorkerMoveWorks(s: System, w: nat, k: Worker)
    requires w < |s.workers| && WorkerWork(s.tables, k) < WorkerWork(s.tables, s.workers[w])
    ensures Work(SetWorker(s, w, k)) < Work(s)
  {
    WorkersWorkSet(s.tables, s.workers, w, k);
  }

  // ---------------------------------------------------------------------------------------------------------
  // Every internal step does some of it

  lemma DispatchWorks(s: System, w: nat)
    requires Enabled(s, Dispatch(w))
    ensures Work(DispatchStep(s, w)) < Work(s)
  {
    hide Work;
    var batch := s.workers[w].pc.batch;
    if batch != [] { BatchWorkFront(s.tables, batch); }
    WorkerMoveWorks(s, w, DispatchStep(s, w).workers[w]);
  }

  lemma StealWorks(s: System, w: nat)
    requires Enabled(s, Steal(w))
    ensures Work(StealStep(s, w)) < Work(s)
  {
    hide Work;
    WorkerMoveWorks(s, w, StealStep(s, w).workers[w]);
  }

  lemma LoopStepWorks(s: System, w: nat)
    ensures Enabled(s, CheckActive(w)) ==> Work(CheckActiveStep(s, w)) < Work(s)
    ensures Enabled(s, LocalDone(w)) ==> Work(LocalDoneStep(s, w)) < Work(s)
  {
    hide Work;
    if Enabled(s, CheckActive(w)) { WorkerMoveWorks(s, w, CheckActiveStep(s, w).workers[w]); }
    if Enabled(s, LocalDone(w)) { WorkerMoveWorks(s, w, LocalDoneStep(s, w).workers[w]); }
  }

  lemma WaitStepWorks(s: System, w: nat)
    ensures Enabled(s, StealEmpty(w)) ==> Work(StealEmptyStep(s, w)) < Work(s)
    ensures Enabled(s, ReturnFromWait(w)) ==> Work(ReturnStep(s, w)) < Work(s)
  {
    hide Work;
    if Enabled(s, StealEmpty(w)) { WorkerMoveWorks(s, w, StealEmptyStep(s, w).workers[w]); }
    if Enabled(s, ReturnFromWait(w)) { WorkerMoveWorks(s, w, ReturnStep(s, w).workers[w]); }
  }

  lemma RunnerStepWorks(s: System, w: nat, t: nat, task: Task, pc: Activity)
    requires w < |s.workers| && t < |s.tasks| && RunningTask(s.workers[w].pc) == Some(t)
    requires PcWork(s.tables, pc) + TaskWork(task, 0) < PcWork(s.tables, s.workers[w].pc) + TaskWork(s.tasks[t], 0)
    ensures Work(Go(SetTask(s, t, task), w, pc)) < Work(s)
  {
    hide Work;
    MoveWorks(s, w, s.workers[w].(pc := pc), t, task, s.tables);
  }

  lemma NotedWork(k: Task)
    ensures TaskWork(LoadTask(k), 0) == 0 && TaskWork(DropRef(FinishTask(k)), 0) == 0 && TaskWork(DropRef(SleepTask(k)), 0) == 0
    ensures InDoPoll(StageOf(k.log)) ==> TaskWork(BeginTask(k), 0) == TaskWork(k, 0) && TaskWork(EndTask(k), 0) == TaskWork(k, 0)
    ensures TaskWork(NotifyTask(k), 0) <= TaskWork(k, 0) + 4
    ensures !InDoPoll(StageOf(k.log)) ==> TaskWork(NotifyTask(k), 0) == 0
  {
    Snoc(k.log, Loaded);
    Snoc(k.log, Finished);
    Snoc(k.log, Slept);
    Snoc(k.log, Began);
    Snoc(k.log, Ended);
    Snoc(k.log, Notified);
  }

  /** What a runner's step can use: its task is in do_poll, or about to enter it. */
  lemma RunnerWork(s: System, w: nat) returns (t: nat)
    requires Inv(s) && w < |s.workers| && RunningTask(s.workers[w].pc).Some?
    ensures t < |s.tasks| && RunningTask(s.workers[w].pc) == Some(t)
    ensures !s.workers[w].pc.AtLoad? ==> InDoPoll(StageOf(s.tasks[t].log))
  {
    hide Inv, TaskInv, WaitOK, StageOf, LoadedLevel;
    t := RunningTask(s.workers[w].pc).value;
    RunnerFacts(s, w, t);
  }

  lemma LoadWorks(s: System, w: nat)
    requires Inv(s) && Enabled(s, LoadLevel(w))
    ensures Work(LoadStep(s, w)) < Work(s)
  {
    hide Inv, Work, TaskWork, StageOf;
    var t := RunnerWork(s, w);
    var k := s.tasks[t];
    NotedWork(k);
    RunnerStepWorks(s, w, t, LoadTask(k), AtBegin(t, k.level));
  }

  lemma BeginWorks(s: System, w: nat)
    requires Inv(s) && Enabled(s, BeginPoll(w))
    ensures Work(BeginStep(s, w)) < Work(s)
  {
    hide Inv, Work, TaskWork, StageOf;
    var t := RunnerWork(s, w);
    var k := s.tasks[t];
    NotedWork(k);
    RunnerStepWorks(s, w, t, BeginTask(k), InPoll(t, s.workers[w].pc.seen));
  }

  lemma PendingWorks(s: System, w: nat)
    requires Inv(s) && Enabled(s, PollPending(w))
    ensures Work(PendingStep(s, w)) < Work(s)
  {
    hide Inv, Work, TaskWork, StageOf;
    var t := RunnerWork(s, w);
    var k := s.tasks[t];
    NotedWork(k);
    RunnerStepWorks(s, w, t, EndTask(k), AtSwap(t, s.workers[w].pc.seen));
  }

  lemma ReadyWorks(s: System, w: nat)
    requires Inv(s) && Enabled(s, PollReady(w))
    ensures Work(ReadyStep(s, w)) < Work(s)
  {
    hide Inv, Work, TaskWork, StageOf;
    var t := RunnerWork(s, w);
    var k := s.tasks[t];
    NotedWork(k);
    RunnerStepWorks(s, w, t, DropRef(FinishTask(k)), Stealing);
  }

  lemma TaskStepWorks(s: System, a: Action)
    requires Inv(s) && Enabled(s, a) && Internal(a) && OfTasks(a)
    ensures Work(Apply(s, a)) < Work(s)
  {
    hide Inv, Work, Enabled, LoadStep, BeginStep, PendingStep, ReadyStep, SwapStep, PushNotifiedStep;
    match a {
      case PushNotified(w) => PushNotifiedWorks(s, w);
      case LoadLevel(w) => LoadWorks(s, w);
      case BeginPoll(w) => BeginWorks(s, w);
      case PollPending(w) => PendingWorks(s, w);
      case PollReady(w) => ReadyWorks(s, w);
      case Swap(w) => SwapWorks(s, w);
    }
  }

  /** A failed compare_exchange uses up the work a notify added. */
  lemma RepollWork(k: Task)
    requires TaskInv(k) && StageOf(k.log) == Polled
    ensures k.level != LoadedLevel(k.log) ==> TaskWork(k, 0) == 4
  {
    SleepIffUnnotified(k);
  }

  lemma SwapWorks(s: System, w: nat)
    requires Inv(s) && Enabled(s, Swap(w))
    ensures Work(SwapStep(s, w)) < Work(s)
  {
    hide Inv, Work, TaskWork, TaskInv;
    var t := s.workers[w].pc.task;
    var k := s.tasks[t];
    RunnerFacts(s, w, t);
    NotedWork(k);
    RepollWork(k);
    hide WorkerOK, WaitOK, InDoPoll;
    if k.level == s.workers[w].pc.seen { RunnerStepWorks(s, w, t, DropRef(SleepTask(k)), Stealing); }
    else { RunnerStepWorks(s, w, t, LoadTask(k), AtBegin(t, k.level)); }
  }

  lemma PushNotifiedWorks(s: System, w: nat)
    requires Enabled(s, PushNotified(w))
    ensures Work(Apply(s, PushNotified(w))) < Work(s)
  {
    hide Work;
    var j, t := s.workers[w], s.workers[w].pending.value;
    MoveWorks(s, w, Worker(j.pc, j.deque + [t], None), t, AddRef(s.tasks, t, 1)[t], s.tables);
  }

  /** The channel changes and worker `w` with it. */
  lemma ChannelMoveWorks(s: System, w: nat, k: Worker, c: Ch.Chan)
    requires w < |s.workers|
    requires WorkerWork(s.tables, k) + ChannelWork(c) < WorkerWork(s.tables, s.workers[w]) + ChannelWork(s.channel)
    ensures Work(s.(workers := s.workers[w := k], channel := c)) < Work(s)
  {
    hide ChannelWork;
    WorkersWorkSet(s.tables, s.workers, w, k);
  }

  lemma ChannelWorks(c: Ch.Chan, a: Ch.Action)
    requires Ch.Inv(c) && Ch.Enabled(c, a)
    ensures a.Write? ==> ChannelWork(Ch.Apply(c, a)) < ChannelWork(c)
    ensures a.Deliver? ==> ChannelWork(Ch.Apply(c, a)) + 9 == ChannelWork(c)
    ensures a.ReadCount? ==> ChannelWork(Ch.Apply(c, a)) < ChannelWork(c)
    ensures a.Pop? ==> ChannelWork(Ch.Apply(c, a)) + (if c.queue == [] then 1 else 8) == ChannelWork(c)
    ensures a.Rearm? ==> ChannelWork(Ch.Apply(c, a)) == ChannelWork(c)
  {
    var d := Ch.Apply(c, a);
    match a {
      case Write => Ch.SameHandlers(c, d);
      case Deliver(w) => assert Ch.At(d, w, Ch.ToRead); assert !Ch.SomeAt(d, Ch.Draining) && !Ch.SomeAt(c, Ch.Draining) && !Ch.SomeAt(c, Ch.ToRead);
      case ReadCount(w) => assert Ch.SomeAt(c, Ch.ToRead); assert !Ch.SomeAt(c, Ch.Draining); assert Ch.At(d, w, Ch.Draining);
      case Pop(w) => assert Ch.SomeAt(c, Ch.Draining);
        if c.queue == [] { assert !Ch.SomeAt(d, Ch.Draining) && !Ch.SomeAt(d, Ch.ToRead); } else { assert Ch.At(d, w, Ch.Draining); }
      case Rearm(w) => assert Ch.At(c, w, Ch.ToRearm); assert !Ch.SomeAt(c, Ch.Draining) && !Ch.SomeAt(c, Ch.ToRead);
        assert !Ch.SomeAt(d, Ch.Draining) && !Ch.SomeAt(d, Ch.ToRead);
      case _ =>
    }
  }

  lemma BatchWorkBack(tables: seq<Table>, batch: seq<Delivery>)
    ensures BatchWork(tables, batch + [Custom]) == BatchWork(tables, batch) + 3
  {
    assert (batch + [Custom])[..|batch|] == batch;
  }

  lemma DeliverWorks(s: System, w: nat)
    requires Ch.Inv(s.channel) && Enabled(s, DeliverChannel(w))
    ensures Work(DeliverChannelStep(s, w)) < Work(s)
  {
    hide Work, Ch.Inv, ChannelWork;
    ChannelWorks(s.channel, Ch.Deliver(w));
    BatchWorkBack(s.tables, s.workers[w].pc.batch);
    ChannelMoveWorks(s, w, DeliverChannelStep(s, w).workers[w], DeliverChannelStep(s, w).channel);
  }

  lemma ReadCountWorks(s: System, w: nat)
    requires Ch.Inv(s.channel) && Enabled(s, ReadCount(w))
    ensures Work(ReadCountStep(s, w)) < Work(s)
  {
    hide Work, Ch.Inv, ChannelWork;
    ChannelWorks(s.channel, Ch.ReadCount(w));
    ChannelMoveWorks(s, w, s.workers[w], ReadCountStep(s, w).channel);
    assert s.workers[w := s.workers[w]] == s.workers;
  }

  lemma PopWorks(s: System, w: nat)
    requires Ch.Inv(s.channel) && Enabled(s, PopDatum(w))
    ensures Work(PopStep(s, w)) < Work(s)
  {
    hide Work, Ch.Inv, ChannelWork;
    ChannelWorks(s.channel, Ch.Pop(w));
    ChannelMoveWorks(s, w, PopStep(s, w).workers[w], PopStep(s, w).channel);
    assert s.workers[w := s.workers[w]] == s.workers;
  }

  lemma RearmWorks(s: System, w: nat)
    requires Ch.Inv(s.channel) && Enabled(s, RearmChannel(w))
    ensures Work(RearmChannelStep(s, w)) < Work(s)
  {
    hide Work, Ch.Inv, ChannelWork;
    ChannelWorks(s.channel, Ch.Rearm(w));
    ChannelMoveWorks(s, w, RearmChannelStep(s, w).workers[w], RearmChannelStep(s, w).channel);
  }

  lemma SpawnWriteWorks(s: System)
    requires Ch.Inv(s.channel) && Enabled(s, SpawnWrite)
    ensures Work(SpawnWriteStep(s)) < Work(s)
  {
    hide Ch.Inv, ChannelWork;
    ChannelWorks(s.channel, Ch.Write);
  }

  // The handler of an fd

  /** Worker `w` moves, interest `iid` may fire, the tables may shrink. */
  lemma HandlerMoveWorks(s: System, w: nat, k: Worker, tables': seq<Table>)
    requires w < |s.workers| && Shrunk(s.tables, tables') && WorkerWork(tables', k) < WorkerWork(s.tables, s.workers[w])
    requires WorkersWork(tables', s.workers) + WorkerWork(s.tables, s.workers[w])
             <= WorkersWork(s.tables, s.workers) + WorkerWork(tables', s.workers[w])
    ensures Work(s.(workers := s.workers[w := k], tables := tables')) < Work(s)
  {
    WorkersWorkSet(tables', s.workers, w, k);
  }

  /** The other workers have no more work when the tables shrink. */
  lemma {:induction false} OthersShrink(tables: seq<Table>, tables': seq<Table>, ws: seq<Worker>, w: nat)
    requires w < |ws| && Shrunk(tables, tables')
    ensures WorkersWork(tables', ws) + WorkerWork(tables, ws[w]) <= WorkersWork(tables, ws) + WorkerWork(tables', ws[w])
  {
    hide WorkerWork;
    var last := |ws| - 1;
    if w < last {
      OthersShrink(tables, tables', ws[..last], w);
      WorkerWorkShrinks(tables, tables', ws[last]);
    } else {
      WorkersWorkShrinks(tables, tables', ws[..last]);
    }
  }

  lemma LockStepWorks(s: System, w: nat)
    requires Enabled(s, TakeLock(w))
    ensures Work(TakeLockStep(s, w)) < Work(s)
  {
    hide Work;
    var tables' := TakeLockStep(s, w).tables;
    assert forall f: nat :: ListSize(tables', f) == ListSize(s.tables, f);
    OthersShrink(s.tables, tables', s.workers, w);
    BatchWorkShrinks(s.tables, tables', s.workers[w].pc.batch);
    HandlerMoveWorks(s, w, TakeLockStep(s, w).workers[w], tables');
  }

  lemma SweepEndWorks(s: System, w: nat)
    requires Enabled(s, SweepNext(w)) && s.workers[w].pc.i >= |s.tables[s.workers[w].pc.fd].list|
    ensures Work(SweepStep(s, w)) < Work(s)
  {
    hide Work;
    var tables' := SweepStep(s, w).tables;
    assert forall f: nat :: ListSize(tables', f) == ListSize(s.tables, f);
    OthersShrink(s.tables, tables', s.workers, w);
    BatchWorkShrinks(s.tables, tables', s.workers[w].pc.batch);
    HandlerMoveWorks(s, w, SweepStep(s, w).workers[w], tables');
  }

  lemma SweepFireWorks(s: System, w: nat)
    requires Enabled(s, SweepNext(w))
    requires var p := s.workers[w].pc; p.i < |s.tables[p.fd].list| && Hit(s.tables[p.fd].list[p.i].mask, p.word)
                                       && !s.interests[s.tables[p.fd].list[p.i].who].fired
    ensures Work(SweepStep(s, w)) < Work(s)
  {
    var p := s.workers[w].pc;
    var iid := s.tables[p.fd].list[p.i].who;
    WorkersWorkSet(s.tables, s.workers, w, SweepStep(s, w).workers[w]);
    TotalSet(s.interests, iid, s.interests[iid].(fired := true), InterestWork, 0);
  }

  lemma SweepWorks(s: System, w: nat)
    requires Inv(s) && Enabled(s, SweepNext(w))
    ensures Work(SweepStep(s, w)) < Work(s)
  {
    hide TasksOK, TokensOK, RefsOK, SlotsOK, BorrowsOK, RunsOK, WorkersOK, ChannelOK, LinksOK, LocksOK, TablesOK, EntriesOK,
         ListedOK, InterestsOK, TellsOK, WaitsOK, Work;
    var p := s.workers[w].pc;
    if p.i >= |s.tables[p.fd].list| {
      SweepEndWorks(s, w);
    } else if Hit(s.tables[p.fd].list[p.i].mask, p.word) {
      ListedIsUnfired(s, w);
      SweepFireWorks(s, w);
    } else {
      WorkerMoveWorks(s, w, SweepStep(s, w).workers[w]);
    }
  }

  lemma FireNotifyWorks(s: System, w: nat)
    requires Inv(s) && Enabled(s, FireNotify(w))
    ensures Work(FireNotifyStep(s, w)) < Work(s)
  {
    hide Inv, Work, TaskInv, NotifyTask;
    var t := s.interests[s.workers[w].pc.iid].slot;
    var k := FireNotifyStep(s, w).workers[w];
    assert FireNotifyStep(s, w).workers == s.workers[w := k];
    TaskIsOK(s, t);
    FiredMoveWorks(s, w, t, k);
    var iid := s.workers[w].pc.iid;
    ToldWorks(s.(workers := s.workers[w := k], tasks := s.tasks[t := NotifyTask(s.tasks[t])]), iid, Some(t));
  }

  lemma ToldWorks(s: System, iid: nat, told: Option<TaskId>)
    requires iid < |s.interests|
    ensures Work(s.(interests := s.interests[iid := s.interests[iid].(told := told)])) == Work(s)
  {
    TotalSet(s.interests, iid, s.interests[iid].(told := told), InterestWork, 0);
  }

  lemma FiredMoveWorks(s: System, w: nat, t: nat, k: Worker)
    requires w < |s.workers| && t < |s.tasks| && TaskInv(s.tasks[t])
    requires var j, p := s.workers[w], s.workers[w].pc;
             j.pending == None && p.AtFire?
             && k == Worker(AtRemove(p.fd, p.word, p.i, p.rem, p.iid, p.batch), j.deque,
                            if s.tasks[t].level == 0 then Some(t) else None)
    ensures Work(s.(workers := s.workers[w := k], tasks := s.tasks[t := NotifyTask(s.tasks[t])])) < Work(s)
  {
    hide TaskInv, Work, TaskWork, StageOf, PcWork;
    NotedWork(s.tasks[t]);
    LevelZeroRests(s.tasks[t]);
    FiredWork(s.tables, s.workers[w], k);
    hide WorkerWork, NotifyTask;
    MoveWorks(s, w, k, t, NotifyTask(s.tasks[t]), s.tables);
  }

  lemma TaskIsOK(s: System, t: nat)
    requires Inv(s) && t < |s.tasks|
    ensures TaskInv(s.tasks[t])
  {
    hide TaskInv;
  }

  lemma FiredWork(tables: seq<Table>, j: Worker, k: Worker)
    requires j.pc.AtFire? && j.pending == None && k.deque == j.deque
    requires k.pc == AtRemove(j.pc.fd, j.pc.word, j.pc.i, j.pc.rem, j.pc.iid, j.pc.batch)
    ensures WorkerWork(tables, k) == WorkerWork(tables, j) - 9 + if k.pending.Some? then 8 else 0
  {
  }

  lemma LevelZeroRests(k: Task)
    requires TaskInv(k)
    ensures k.level == 0 ==> !InDoPoll(StageOf(k.log))
  {
    LevelCountsNotifies(k.log);
  }

  lemma RemoveFiredWorks(s: System, w: nat)
    requires Enabled(s, RemoveFired(w))
    ensures Work(RemoveFiredStep(s, w)) < Work(s)
  {
    hide Work;
    var tables' := RemoveFiredStep(s, w).tables;
    assert Shrunk(s.tables, tables');
    OthersShrink(s.tables, tables', s.workers, w);
    BatchWorkShrinks(s.tables, tables', s.workers[w].pc.batch);
    HandlerMoveWorks(s, w, RemoveFiredStep(s, w).workers[w], tables');
  }

  lemma ChannelInv(s: System)
    requires Inv(s)
    ensures Ch.Inv(s.channel)
  {
  }

  lemma ChannelStepWorks(s: System, a: Action)
    requires Ch.Inv(s.channel) && Enabled(s, a)
    requires a.SpawnWrite? || a.DeliverChannel? || a.ReadCount? || a.PopDatum? || a.RearmChannel?
    ensures Work(Apply(s, a)) < Work(s)
  {
    hide Work, Enabled, Ch.Inv, SpawnWriteStep, DeliverChannelStep, ReadCountStep, PopStep, RearmChannelStep;
    match a {
      case SpawnWrite => SpawnWriteWorks(s);
      case DeliverChannel(w) => DeliverWorks(s, w);
      case ReadCount(w) => ReadCountWorks(s, w);
      case PopDatum(w) => PopWorks(s, w);
      case RearmChannel(w) => RearmWorks(s, w);
    }
  }

  lemma InputlessLoopWorks(s: System, a: Action)
    requires Enabled(s, a)
    requires a.CheckActive? || a.LocalDone? || a.Steal? || a.StealEmpty? || a.ReturnFromWait? || a.Dispatch?
    ensures Work(Apply(s, a)) < Work(s)
  {
    hide Work, Enabled, StealStep, DispatchStep, CheckActiveStep, LocalDoneStep, StealEmptyStep, ReturnStep;
    match a {
      case Steal(w) => StealWorks(s, w);
      case Dispatch(w) => DispatchWorks(s, w);
      case CheckActive(w) => LoopStepWorks(s, w);
      case LocalDone(w) => LoopStepWorks(s, w);
      case StealEmpty(w) => WaitStepWorks(s, w);
      case ReturnFromWait(w) => WaitStepWorks(s, w);
    }
  }

  lemma HandlerStepWorks(s: System, a: Action)
    requires Inv(s) && Enabled(s, a) && (a.TakeLock? || a.SweepNext? || a.FireNotify? || a.RemoveFired?)
    ensures Work(Apply(s, a)) < Work(s)
  {
    hide Inv, Work, Enabled, TakeLockStep, SweepStep, FireNotifyStep, RemoveFiredStep;
    match a {
      case TakeLock(w) => LockStepWorks(s, w);
      case SweepNext(w) => SweepWorks(s, w);
      case FireNotify(w) => FireNotifyWorks(s, w);
      case RemoveFired(w) => RemoveFiredWorks(s, w);
    }
  }

  /** Every internal step leaves less work. */
  lemma InternalStepWorks(s: System, a: Action)
    requires Inv(s) && Enabled(s, a) && Internal(a)
    ensures Work(Apply(s, a)) < Work(s)
  {
    ChannelInv(s);
    hide Inv, Work, Enabled, Apply, Ch.Inv;
    if OfTasks(a) {
      TaskStepWorks(s, a);
    } else if OfInterests(a) {
      HandlerStepWorks(s, a);
    } else if a.SpawnWrite? || a.DeliverChannel? || a.ReadCount? || a.PopDatum? || a.RearmChannel? {
      ChannelStepWorks(s, a);
    } else {
      InputlessLoopWorks(s, a);
    }
  }

  lemma {:induction false} InternalRunBounded(s: System, run: seq<Action>)
    requires Inv(s) && Legal(s, run) && InternalRun(run)
    ensures |run| <= Work(s)
    decreases |run|
  {
    hide Inv, Work;
    if run != [] {
      StepKeepsInv(s, run[0]);
      InternalStepWorks(s, run[0]);
      InternalRunBounded(Apply(s, run[0]), run[1..]);
    }
  }

  /** From any reachable state, every schedule without new input is over after at most `Work(s)` steps. */
  lemma EveryScheduleStops(s: System, run: seq<Action>)
    requires Reachable(s) && Legal(s, run) && InternalRun(run)
    ensures |run| <= Work(s)
  {
    hide Inv, Work;
    ReachableInv(s);
    InternalRunBounded(s, run);
  }

  // ---------------------------------------------------------------------------------------------------------
  // Where it stops

  /** No thread can take a step on its own. */
  ghost predicate AtRest(s: System) { forall a :: Internal(a) ==> !Enabled(s, a) }

  predicate Blocked(k: Worker) { k.pending == None && k.pc.Waiting? && k.pc.blocking && k.pc.batch == [] }

  /** A worker that is not blocked has a step to take, unless another worker has the lock it wants. */
  lemma WorkerCanStep(s: System, w: nat) returns (a: Action)
    requires Inv(s) && w < |s.workers| && !Blocked(s.workers[w])
    requires !s.workers[w].pc.Exited? && !s.workers[w].pc.AtLock?
    ensures Enabled(s, a) && Internal(a)
  {
    var k := s.workers[w];
    if k.pending.Some? {
      a := WorkerPushes(s, w);
    } else if k.pc.AtFire? {
      hide Inv;
      SlotExists(s, w);
      a := FireNotify(w);
    } else {
      WorkerFacts(s, w);
      hide Inv, WorkerOK, LinkOK, EntriesOK;
      a := FreeWorkerCanStep(s, w);
    }
  }

  lemma WorkerFacts(s: System, w: nat)
    requires Inv(s) && w < |s.workers|
    ensures WorkerOK(s.tasks, s.tables, s.interests, w, s.workers[w]) && LinkOK(s.channel, w, s.workers[w])
    ensures EntriesOK(s.tables, s.interests)
  {
    hide TasksOK, TokensOK, RefsOK, SlotsOK, BorrowsOK, RunsOK, WorkerOK, ChannelOK, LinkOK, LocksOK, TablesOK, EntriesOK, ListedOK,
         InterestsOK, TellsOK, WaitsOK;
  }

  lemma RunnerCanStep(s: System, w: nat) returns (a: Action)
    requires Free(s, w) && RunningTask(s.workers[w].pc).Some?
    requires WorkerOK(s.tasks, s.tables, s.interests, w, s.workers[w])
    ensures Enabled(s, a) && Internal(a)
  {
    hide StageOf, LoadedLevel;
    match s.workers[w].pc {
      case AtLoad(_) => a := LoadLevel(w);
      case AtBegin(_, _) => a := BeginPoll(w);
      case InPoll(_, _) => a := PollPending(w);
      case AtSwap(_, _) => a := Swap(w);
    }
  }

  lemma LooperCanStep(s: System, w: nat) returns (a: Action)
    requires Free(s, w) && RunningTask(s.workers[w].pc) == None && !HandlesFd(s.workers[w].pc) && !s.workers[w].pc.Exited?
    requires s.workers[w].pc.Waiting? ==> s.workers[w].pc.batch != [] || !s.workers[w].pc.blocking
    requires LinkOK(s.channel, w, s.workers[w])
    ensures Enabled(s, a) && Internal(a)
  {
    match s.workers[w].pc {
      case AtTop => a := CheckActive(w);
      case LocalWork => a := LocalDone(w);
      case Stealing => if s.workers[w].deque == [] { a := StealEmpty(w); } else { a := Steal(w); }
      case Waiting(_, _) => a := ReturnFromWait(w);
      case Dispatching(_) => a := Dispatch(w);
      case InChannel(_) => a := HandlerCanStep(s, w);
    }
  }

  lemma FreeWorkerCanStep(s: System, w: nat) returns (a: Action)
    requires Free(s, w) && (s.workers[w].pc.Waiting? ==> s.workers[w].pc.batch != [] || !s.workers[w].pc.blocking)
    requires WorkerOK(s.tasks, s.tables, s.interests, w, s.workers[w]) && LinkOK(s.channel, w, s.workers[w])
    requires EntriesOK(s.tables, s.interests)
    requires !s.workers[w].pc.Exited? && !s.workers[w].pc.AtLock? && !s.workers[w].pc.AtFire?
    ensures Enabled(s, a) && Internal(a)
  {
    hide StageOf, LoadedLevel, RearmMask, LinkOK;
    var pc := s.workers[w].pc;
    if RunningTask(pc).Some? { a := RunnerCanStep(s, w); }
    else if pc.Sweeping? { SweepCanStep(s, w); a := SweepNext(w); }
    else if pc.AtRemove? { a := RemoveFired(w); }
    else { a := LooperCanStep(s, w); }
  }

  lemma SweepCanStep(s: System, w: nat)
    requires Free(s, w) && s.workers[w].pc.Sweeping? && s.workers[w].pc.fd < |s.tables| && EntriesOK(s.tables, s.interests)
    ensures Enabled(s, SweepNext(w))
  {
    var f := s.workers[w].pc.fd;
    assert forall k :: 0 <= k < |s.tables[f].list| ==> s.tables[f].list[k].who < |s.interests|;
  }

  lemma PendingExists(s: System, w: nat)
    requires Inv(s) && w < |s.workers| && s.workers[w].pending.Some?
    ensures s.workers[w].pending.value < |s.tasks|
  {
    hide TasksOK, RefsOK, SlotsOK, BorrowsOK, RunsOK, WorkersOK, ChannelOK, LinksOK, LocksOK, TablesOK, EntriesOK, ListedOK, InterestsOK, TellsOK, WaitsOK;
    TokenIsDue(s, w, s.workers[w].pending.value);
  }

  lemma SlotExists(s: System, w: nat)
    requires Inv(s) && w < |s.workers| && s.workers[w].pc.AtFire?
    ensures s.workers[w].pc.iid < |s.interests| && s.interests[s.workers[w].pc.iid].slot < |s.tasks|
  {
    hide TasksOK, BorrowsOK, RunsOK, WorkersOK, ChannelOK, LinksOK, LocksOK, TablesOK, EntriesOK, ListedOK, InterestsOK, TellsOK, WaitsOK;
    FiringIsThere(s, w);
    SlotHasHandle(s, s.workers[w].pc.iid);
    HeldExists(s, s.interests[s.workers[w].pc.iid].slot);
  }

  lemma HandlerCanStep(s: System, w: nat) returns (a: Action)
    requires Free(s, w) && s.workers[w].pc.InChannel? && LinkOK(s.channel, w, s.workers[w])
    ensures Internal(a) && Enabled(s, a)
  {
    match s.channel.handlers[w] {
      case ToRead => a := ReadCount(w);
      case Draining => a := PopDatum(w);
      case ToRearm => a := RearmChannel(w);
    }
  }

  /** A worker waiting for a lock can take it, or the worker that has it can step. */
  lemma LockCanStep(s: System, w: nat) returns (a: Action)
    requires Inv(s) && w < |s.workers| && s.workers[w].pc.AtLock?
    ensures Enabled(s, a) && Internal(a)
  {
    hide TasksOK, TokensOK, RefsOK, SlotsOK, BorrowsOK, RunsOK, WorkersOK, ChannelOK, LinksOK, TablesOK, EntriesOK, ListedOK,
         InterestsOK, TellsOK, WaitsOK;
    WorkerFacts(s, w);
    var f := s.workers[w].pc.fd;
    if s.workers[w].pending.Some? {
      a := WorkerPushes(s, w);
    } else if s.tables[f].lock == None {
      a := TakeLock(w);
    } else {
      assert Holds(s.workers, s.tables[f].lock.value, f);
      a := WorkerCanStep(s, s.tables[f].lock.value);
    }
  }

  lemma WorkerPushes(s: System, w: nat) returns (a: Action)
    requires Inv(s) && w < |s.workers| && s.workers[w].pending.Some?
    ensures Enabled(s, a) && Internal(a)
  {
    hide Inv;
    PendingExists(s, w);
    a := PushNotified(w);
  }

  lemma NothingToWrite(s: System)
    ensures s.channel.unwritten > 0 ==> Enabled(s, SpawnWrite)
  {
  }

  /**
    At rest every worker of a pool none of whose workers has exited is blocked, no post is half done, and the
    eventfd is at 0: exactly the situation of `NoStrandedWork` and `SleepersAreArmed`.
  */
  lemma RestIsQuiescence(s: System)
    requires Reachable(s) && AtRest(s) && |s.workers| > 0
    requires forall w :: 0 <= w < |s.workers| ==> !s.workers[w].pc.Exited?
    ensures AllBlocked(s) && s.channel.count == 0 && s.channel.unwritten == 0
  {
    ReachableInv(s);
    hide TasksOK, TokensOK, RefsOK, SlotsOK, BorrowsOK, RunsOK, WorkersOK, LinksOK, LocksOK, TablesOK, EntriesOK, ListedOK,
         InterestsOK, TellsOK, WaitsOK;
    forall w | 0 <= w < |s.workers| ensures Blocked(s.workers[w]) {
      if s.workers[w].pc.AtLock? {
        var a := LockCanStep(s, w);
      } else if !Blocked(s.workers[w]) {
        var a := WorkerCanStep(s, w);
      }
    }
    BlockedHoldNothing(s);
    assert ChannelOK(s.channel, |s.tasks|);
    var w := 0;
    WorkerFacts(s, w);
    hide Inv, Reachable, Enabled;
    assert !Enabled(s, SpawnWrite) && !Enabled(s, DeliverChannel(w));
    WaiterIsServed(s, w);
    NothingToWrite(s);
  }
}
