/**
  What the state records is what happened.  The actions of a run, and the states they were taken in, are written into
  ledgers: one for each task, one for each interest, one for each worker.  At every moment the state of the composed
  system agrees with them.
*/
module WakeLedger {
  import opened Prelude
  import opened Interests
  import opened TaskProtocol
  import opened WakeSystem
  import opened WakeInvariant
  import opened WakeProofs
  import opened WakeInterestProofs
  import opened WakeTheorems
  import opened WakeRest
  import opened WakeLives
  import Ch = CustomEvents

  predicate Runs(s: System, w: nat, t: nat) { w < |s.workers| && RunningTask(s.workers[w].pc) == Some(t) }

  // ---------------------------------------------------------------------------------------------------------
  // Tasks

  /**
    The ledger of a task: whether it was spawned, the interests it has made or seen unfired since its latest poll
    began, the accesses to its level in order, and the notify handles of it in existence.
  */
  datatype TaskBook = TaskBook(spawned: bool, seen: set<nat>, log: seq<Event>, handles: int)

  const BLANK: TaskBook := TaskBook(false, {}, [], 0)

  function Noted(b: TaskBook, e: Event): TaskBook { b.(log := b.log + [e]) }

  function Entered(s: System, a: Action, t: nat, b: TaskBook): TaskBook
    requires Enabled(s, a)
  {
    match a
    case SpawnPush => if t == |s.tasks| then b.(spawned := true) else b
    case LoadLevel(w) => if Runs(s, w, t) then Noted(b, Loaded) else b
    case BeginPoll(w) => if Runs(s, w, t) then Noted(b, Began).(seen := {}) else b
    case PollPending(w) => if Runs(s, w, t) then Noted(b, Ended) else b
    case PollReady(w) => if Runs(s, w, t) then Noted(b, Finished) else b
    // asleep if nobody has notified since the level was read, else the level is read again
    case Swap(w) => if Runs(s, w, t) then Noted(b, if NotifiesSinceLoad(b.log) == 0 then Slept else Loaded) else b
    case Notify(_, u) => if u == t then Noted(b, Notified) else b
    case ForeignNotify(u) => if u == t then Noted(b, Notified) else b
    case FireNotify(w) => if s.interests[s.workers[w].pc.iid].slot == t then Noted(b, Notified) else b
    case CloneOwn(w) => b.(handles := b.handles + One(Runs(s, w, t)))
    case CloneHandle(u) => b.(handles := b.handles + One(u == t))
    case DropHandle(u) => b.(handles := b.handles - One(u == t))
    case AddInterest(w, _, _) => if Runs(s, w, t) then b.(seen := b.seen + {|s.interests|}, handles := b.handles + 1) else b
    case CheckInterest(w, iid) => if Runs(s, w, t) && !s.interests[iid].fired then b.(seen := b.seen + {iid}) else b
    case RegisterInterest(w, iid) => b.(handles := b.handles + One(Runs(s, w, t)) - One(s.interests[iid].slot == t))
    case DropInterest(iid) => b.(handles := b.handles - One(s.interests[iid].slot == t))
    case _ => b
  }

  function TaskLedger(s: System, run: seq<Action>, t: nat, b: TaskBook): TaskBook
    requires Legal(s, run)
    decreases |run|
  {
    if run == [] then b else TaskLedger(Apply(s, run[0]), run[1..], t, Entered(s, run[0], t, b))
  }

  /** The same, read off the state. */
  function BookOf(s: System, t: nat): TaskBook
  {
    if t < |s.tasks| then TaskBook(true, s.tasks[t].waits, s.tasks[t].log, s.handles[t]) else TaskBook(false, {}, [], s.handles[t])
  }

  lemma PollEntered(s: System, a: Action, t: nat)
    requires Enabled(s, a) && PollStep(a) && !a.Swap?
    ensures BookOf(Apply(s, a), t) == Entered(s, a, t, BookOf(s, t))
  {
    assert Apply(s, a) == ApplyToTasks(s, a);
  }

  /** The exchange succeeds exactly if nobody has notified since the level was read. */
  lemma SwapSeen(s: System, w: nat)
    requires Inv(s) && Enabled(s, Swap(w))
    ensures var k := s.tasks[s.workers[w].pc.task]; k.level == s.workers[w].pc.seen <==> NotifiesSinceLoad(k.log) == 0
  {
    RunnerFacts(s, w, s.workers[w].pc.task);
    hide Inv, WaitOK;
    SleepIffUnnotified(s.tasks[s.workers[w].pc.task]);
  }

  lemma SwapEntered(s: System, w: nat, t: nat)
    requires Inv(s) && Enabled(s, Swap(w))
    ensures BookOf(SwapStep(s, w), t) == Entered(s, Swap(w), t, BookOf(s, t))
  {
    SwapSeen(s, w);
    hide Inv, NotifiesSinceLoad;
  }

  lemma NotifyEntered(s: System, a: Action, t: nat)
    requires Enabled(s, a) && OfTasks(a) && !PollStep(a)
    ensures BookOf(Apply(s, a), t) == Entered(s, a, t, BookOf(s, t))
  {
    assert Apply(s, a) == ApplyToTasks(s, a);
  }

  lemma FutureEntered(s: System, a: Action, t: nat)
    requires Enabled(s, a) && (a.OpenFd? || a.AddInterest? || a.CheckInterest?)
    ensures BookOf(Apply(s, a), t) == Entered(s, a, t, BookOf(s, t))
  {
    hide Union, Listed;
  }

  lemma RegisterEntered(s: System, w: nat, iid: nat, t: nat)
    requires Enabled(s, RegisterInterest(w, iid)) && s.handles[s.interests[iid].slot] > 0
    ensures BookOf(RegisterInterestStep(s, w, iid), t) == Entered(s, RegisterInterest(w, iid), t, BookOf(s, t))
  {
  }

  lemma DropEntered(s: System, iid: nat, t: nat)
    requires Enabled(s, DropInterest(iid)) && s.handles[s.interests[iid].slot] > 0
    ensures BookOf(DropInterestStep(s, iid), t) == Entered(s, DropInterest(iid), t, BookOf(s, t))
  {
  }

  lemma SlotStepIs(s: System, a: Action)
    requires Enabled(s, a)
    ensures a.RegisterInterest? ==> Apply(s, a) == RegisterInterestStep(s, a.w, a.iid) && a.iid < |s.interests| && !s.interests[a.iid].gone
    ensures a.DropInterest? ==> Apply(s, a) == DropInterestStep(s, a.iid) && a.iid < |s.interests| && !s.interests[a.iid].gone
  {
  }

  lemma SlotEntered(s: System, a: Action, t: nat)
    requires Inv(s) && Enabled(s, a) && (a.RegisterInterest? || a.DropInterest?)
    ensures BookOf(Apply(s, a), t) == Entered(s, a, t, BookOf(s, t))
  {
    hide Inv, Enabled, Apply, BookOf, Entered, RegisterInterestStep, DropInterestStep;
    SlotStepIs(s, a);
    SlotIsHandle(s, a.iid);
    if a.RegisterInterest? { RegisterEntered(s, a.w, a.iid, t); } else { DropEntered(s, a.iid, t); }
  }

  lemma SlotIsHandle(s: System, iid: nat)
    requires Inv(s) && iid < |s.interests| && !s.interests[iid].gone
    ensures s.handles[s.interests[iid].slot] > 0
  {
    hide TasksOK, TokensOK, RefsOK, BorrowsOK, RunsOK, WorkersOK, ChannelOK, LinksOK, LocksOK, TablesOK, EntriesOK, ListedOK,
         InterestsOK, TellsOK, WaitsOK;
    SlotHasHandle(s, iid);
  }

  lemma HandlerEntered(s: System, a: Action, t: nat)
    requires Enabled(s, a) && (a.DeliverFd? || a.TakeLock? || a.SweepNext? || a.FireNotify? || a.RemoveFired?)
    ensures BookOf(Apply(s, a), t) == Entered(s, a, t, BookOf(s, t))
  {
    hide Union, RearmMask;
  }

  lemma LoopEntered(s: System, a: Action, t: nat)
    requires Enabled(s, a) && !OfTasks(a) && !OfInterests(a)
    ensures BookOf(Apply(s, a), t) == Entered(s, a, t, BookOf(s, t))
  {
    hide Ch.Apply;
    assert Apply(s, a) == ApplyToLoop(s, a);
  }

  lemma SwapIs(s: System, w: nat)
    requires Enabled(s, Swap(w))
    ensures Apply(s, Swap(w)) == SwapStep(s, w)
  {
  }

  lemma EnteredStep(s: System, a: Action, t: nat)
    requires Inv(s) && Enabled(s, a)
    ensures BookOf(Apply(s, a), t) == Entered(s, a, t, BookOf(s, t))
  {
    hide Inv, Enabled, Apply, BookOf, Entered;
    if a.Swap? { SwapEntered(s, a.w, t); SwapIs(s, a.w); }
    else if PollStep(a) { PollEntered(s, a, t); }
    else if OfTasks(a) { NotifyEntered(s, a, t); }
    else if a.OpenFd? || a.AddInterest? || a.CheckInterest? { FutureEntered(s, a, t); }
    else if a.RegisterInterest? || a.DropInterest? { SlotEntered(s, a, t); }
    else if OfInterests(a) { HandlerEntered(s, a, t); }
    else { LoopEntered(s, a, t); }
  }

  lemma {:induction false} LedgerRun(s: System, run: seq<Action>, t: nat)
    requires Inv(s) && Legal(s, run)
    ensures BookOf(Exec(s, run), t) == TaskLedger(s, run, t, BookOf(s, t))
    decreases |run|
  {
    hide Inv, Enabled, Apply, BookOf, Entered;
    if run != [] {
      EnteredStep(s, run[0], t);
      StepKeepsInv(s, run[0]);
      LedgerRun(Apply(s, run[0]), run[1..], t);
    }
  }

  /**
    The record of every task, over every run of a pool: what it waits on is what it has made or found unfired since
    its latest poll began, its log is the accesses made in that order, and its handles are those handed out and not
    taken back.
  */
  lemma TaskRecord(n: nat, run: seq<Action>, t: nat)
    requires Legal(Init(n), run)
    ensures BookOf(Exec(Init(n), run), t) == TaskLedger(Init(n), run, t, BLANK)
  {
    InitInv(n);
    hide Inv;
    LedgerRun(Init(n), run, t);
  }

  // ---------------------------------------------------------------------------------------------------------
  // Interests

  /** What a step does to an interest: it is made, fired, reported, registered on or dropped. */
  function Changed(s: System, a: Action, iid: nat, x: Option<Interest>): Option<Interest>
    requires Enabled(s, a)
  {
    if a.AddInterest? && iid == |s.interests| then
      var t := s.workers[a.w].pc.task;
      Some(Interest(a.fd, a.mask, false, t, t, None, false))
    else if x == None then None
    else if WakeLives.Fires(s, a, iid) then Some(x.value.(fired := true))
    else if Reports(s, a, iid) then Some(x.value.(told := Some(x.value.slot)))
    else if a.RegisterInterest? && a.iid == iid then Some(x.value.(slot := s.workers[a.w].pc.task))
    else if a.DropInterest? && a.iid == iid then Some(x.value.(gone := true))
    else x
  }

  function InterestLedger(s: System, run: seq<Action>, iid: nat, x: Option<Interest>): Option<Interest>
    requires Legal(s, run)
    decreases |run|
  {
    if run == [] then x else InterestLedger(Apply(s, run[0]), run[1..], iid, Changed(s, run[0], iid, x))
  }

  function InterestOf(s: System, iid: nat): Option<Interest> { if iid < |s.interests| then Some(s.interests[iid]) else None }

  lemma FutureChanges(s: System, a: Action, iid: nat)
    requires Enabled(s, a) && (a.AddInterest? || a.RegisterInterest? || a.DropInterest?)
    ensures InterestOf(Apply(s, a), iid) == Changed(s, a, iid, InterestOf(s, iid))
  {
    hide Union, Listed;
  }

  lemma HandlerChanges(s: System, a: Action, iid: nat)
    requires Enabled(s, a) && (a.SweepNext? || a.FireNotify?)
    ensures InterestOf(Apply(s, a), iid) == Changed(s, a, iid, InterestOf(s, iid))
  {
    hide Union, RearmMask;
  }

  lemma ChangedStep(s: System, a: Action, iid: nat)
    requires Enabled(s, a)
    ensures InterestOf(Apply(s, a), iid) == Changed(s, a, iid, InterestOf(s, iid))
  {
    hide Enabled, Apply;
    if a.AddInterest? || a.RegisterInterest? || a.DropInterest? { FutureChanges(s, a, iid); }
    else if a.SweepNext? || a.FireNotify? { HandlerChanges(s, a, iid); }
    else if OfInterests(a) { InterestsUntouched(s, a); }
    else { InterestsOutOfReach(s, a); }
  }

  /** The record of every interest, over every run. */
  lemma {:induction false} InterestRecord(s: System, run: seq<Action>, iid: nat)
    requires Legal(s, run)
    ensures InterestOf(Exec(s, run), iid) == InterestLedger(s, run, iid, InterestOf(s, iid))
    decreases |run|
  {
    hide Enabled, Apply, InterestOf, Changed;
    if run != [] {
      ChangedStep(s, run[0], iid);
      InterestRecord(Apply(s, run[0]), run[1..], iid);
    }
  }

  /** The step has the interest polled by another task than its maker. */
  predicate Strays(s: System, a: Action, iid: nat)
    requires Enabled(s, a)
  {
    (a.CheckInterest? || a.RegisterInterest?) && a.iid == iid && !Runs(s, a.w, s.interests[iid].maker)
  }

  predicate StraysIn(s: System, run: seq<Action>, iid: nat)
    requires Legal(s, run)
    decreases |run|
  {
    run != [] && (Strays(s, run[0], iid) || StraysIn(Apply(s, run[0]), run[1..], iid))
  }

  lemma FutureStrays(s: System, a: Action, iid: nat)
    requires Enabled(s, a) && (a.CheckInterest? || a.RegisterInterest?)
    ensures iid in Apply(s, a).moved <==> iid in s.moved || Strays(s, a, iid)
  {
  }

  lemma OthersStray(s: System, a: Action, iid: nat)
    requires Enabled(s, a) && OfInterests(a) && !a.CheckInterest? && !a.RegisterInterest?
    ensures Apply(s, a).moved == s.moved && !Strays(s, a, iid)
  {
    hide Union, RearmMask;
  }

  lemma OutsidersStray(s: System, a: Action, iid: nat)
    requires Enabled(s, a) && !OfInterests(a)
    ensures Apply(s, a).moved == s.moved && !Strays(s, a, iid) && Apply(s, a).tables == s.tables
  {
    if OfTasks(a) { TasksLeaveFds(s, a); } else { LoopLeavesFds(s, a); }
  }

  lemma TasksLeaveFds(s: System, a: Action)
    requires Enabled(s, a) && OfTasks(a)
    ensures ApplyToTasks(s, a).moved == s.moved && ApplyToTasks(s, a).tables == s.tables
  {
  }

  lemma LoopLeavesFds(s: System, a: Action)
    requires Enabled(s, a) && !OfTasks(a) && !OfInterests(a)
    ensures ApplyToLoop(s, a).moved == s.moved && ApplyToLoop(s, a).tables == s.tables
  {
  }

  /** The moved interests, over every run, are those that another task than their maker has polled. */
  lemma {:induction false} MovedRecord(s: System, run: seq<Action>, iid: nat)
    requires Legal(s, run)
    ensures iid in Exec(s, run).moved <==> iid in s.moved || StraysIn(s, run, iid)
    decreases |run|
  {
    hide Enabled, Apply, Strays;
    if run != [] {
      if run[0].CheckInterest? || run[0].RegisterInterest? { FutureStrays(s, run[0], iid); }
      else if OfInterests(run[0]) { OthersStray(s, run[0], iid); }
      else { OutsidersStray(s, run[0], iid); }
      MovedRecord(Apply(s, run[0]), run[1..], iid);
    }
  }

  // ---------------------------------------------------------------------------------------------------------
  // What the kernel is armed with

  /**
    The arming of an fd: empty when it is opened, taken away by a delivery, extended by an interest that asks for more,
    and put back by a handler that leaves somebody in the table, with what those ask for.
  */
  function Arming(s: System, a: Action, f: Fd, x: Option<Mask>): Option<Mask>
    requires Enabled(s, a)
  {
    if a == OpenFd then (if f == |s.tables| then Some({}) else x)
    else if f >= |s.tables| then x
    else
      var list := s.tables[f].list;
      if a.DeliverFd? && a.fd == f then None
      else if a.AddInterest? && a.fd == f && !(a.mask <= Union(list)) then Some(Union(list) + a.mask)
      else if a.SweepNext? && s.workers[a.w].pc.fd == f && s.workers[a.w].pc.i >= |list| && list != [] then Some(Union(list))
      else x
  }

  function ArmedOf(s: System, f: Fd): Option<Mask> { if f < |s.tables| then s.tables[f].armed else None }

  function ArmingLedger(s: System, run: seq<Action>, f: Fd, x: Option<Mask>): Option<Mask>
    requires Legal(s, run)
    decreases |run|
  {
    if run == [] then x else ArmingLedger(Apply(s, run[0]), run[1..], f, Arming(s, run[0], f, x))
  }

  /** At its end a sweep has or-ed up the whole table. */
  lemma SweptAll(s: System, w: nat)
    requires Inv(s) && Enabled(s, SweepNext(w)) && s.workers[w].pc.i >= |s.tables[s.workers[w].pc.fd].list|
    ensures s.workers[w].pc.rem == RearmMask(s.tables[s.workers[w].pc.fd].list)
  {
    WorkerFacts(s, w);
    hide Inv, StageOf, LoadedLevel, RearmMask;
    var list := s.tables[s.workers[w].pc.fd].list;
    assert list[..s.workers[w].pc.i] == list;
  }

  lemma SweepArms(s: System, w: nat, f: Fd)
    requires Inv(s) && Enabled(s, SweepNext(w))
    ensures ArmedOf(SweepStep(s, w), f) == Arming(s, SweepNext(w), f, ArmedOf(s, f))
  {
    if s.workers[w].pc.i >= |s.tables[s.workers[w].pc.fd].list| { SweptAll(s, w); }
    hide Inv, Union;
  }

  lemma FutureArms(s: System, a: Action, f: Fd)
    requires Enabled(s, a) && (a.OpenFd? || a.AddInterest? || a.DeliverFd?)
    ensures ArmedOf(Apply(s, a), f) == Arming(s, a, f, ArmedOf(s, f))
  {
    hide Union;
  }

  lemma OthersArm(s: System, a: Action, f: Fd)
    requires Enabled(s, a) && OfInterests(a) && !a.OpenFd? && !a.AddInterest? && !a.DeliverFd? && !a.SweepNext?
    ensures ArmedOf(Apply(s, a), f) == Arming(s, a, f, ArmedOf(s, f))
  {
    hide Union, SwapRemove;
  }

  lemma OutsidersArm(s: System, a: Action, f: Fd)
    requires Enabled(s, a) && !OfInterests(a)
    ensures ArmedOf(Apply(s, a), f) == Arming(s, a, f, ArmedOf(s, f))
  {
    OutsidersStray(s, a, 0);
    hide Union, Enabled, Apply;
  }

  lemma SweepStepIs(s: System, w: nat)
    requires Enabled(s, SweepNext(w))
    ensures Apply(s, SweepNext(w)) == SweepStep(s, w)
  {
  }

  lemma ArmingStep(s: System, a: Action, f: Fd)
    requires Inv(s) && Enabled(s, a)
    ensures ArmedOf(Apply(s, a), f) == Arming(s, a, f, ArmedOf(s, f))
  {
    hide Inv, Enabled, Apply, ArmedOf, Arming;
    if a.SweepNext? { SweepArms(s, a.w, f); SweepStepIs(s, a.w); }
    else if a.OpenFd? || a.AddInterest? || a.DeliverFd? { FutureArms(s, a, f); }
    else if OfInterests(a) { OthersArm(s, a, f); }
    else { OutsidersArm(s, a, f); }
  }

  /** The record of the arming of every fd, over every run. */
  lemma {:induction false} ArmingRecord(s: System, run: seq<Action>, f: Fd)
    requires Inv(s) && Legal(s, run)
    ensures ArmedOf(Exec(s, run), f) == ArmingLedger(s, run, f, ArmedOf(s, f))
    decreases |run|
  {
    hide Inv, Enabled, Apply, ArmedOf, Arming;
    if run != [] {
      ArmingStep(s, run[0], f);
      StepKeepsInv(s, run[0]);
      ArmingRecord(Apply(s, run[0]), run[1..], f);
    }
  }

  // ---------------------------------------------------------------------------------------------------------
  // Shutdown

  /** The worker looks at `active` when it is clear. */
  predicate Leaves(s: System, a: Action, w: nat) { a == CheckActive(w) && !s.active }

  predicate HasExited(s: System, w: nat) { w < |s.workers| && s.workers[w].pc.Exited? }

  ghost predicate ExitsBy(s: System, s': System, a: Action)
  {
    && |s'.workers| == |s.workers| && (s'.active <==> s.active && a != Shutdown)
    && forall w: nat :: HasExited(s', w) <==> HasExited(s, w) || Leaves(s, a, w)
  }

  lemma PollExits(s: System, a: Action)
    requires Enabled(s, a) && PollStep(a)
    ensures ExitsBy(s, Apply(s, a), a)
  {
    hide NotifyTask, LoadTask, BeginTask, EndTask, SleepTask, FinishTask;
  }

  lemma NotifyExits(s: System, a: Action)
    requires Enabled(s, a) && OfTasks(a) && !PollStep(a)
    ensures ExitsBy(s, Apply(s, a), a)
  {
    hide NotifyTask;
  }

  lemma FutureExits(s: System, a: Action)
    requires Enabled(s, a)
    requires a.OpenFd? || a.AddInterest? || a.CheckInterest? || a.RegisterInterest? || a.DropInterest?
    ensures ExitsBy(s, Apply(s, a), a)
  {
    assert Apply(s, a).workers == s.workers;
  }

  lemma HandlerExits(s: System, a: Action)
    requires Enabled(s, a) && (a.DeliverFd? || a.TakeLock? || a.RemoveFired?)
    ensures ExitsBy(s, Apply(s, a), a)
  {
    hide SwapRemove;
  }

  lemma FirerExits(s: System, a: Action)
    requires Enabled(s, a) && (a.SweepNext? || a.FireNotify?)
    ensures ExitsBy(s, Apply(s, a), a)
  {
    hide NotifyTask, Union, RearmMask;
  }

  lemma LoopExits(s: System, a: Action)
    requires Enabled(s, a) && !OfTasks(a) && !OfInterests(a)
    ensures ExitsBy(s, Apply(s, a), a)
  {
    hide Ch.Apply;
    assert Apply(s, a) == ApplyToLoop(s, a);
  }

  lemma ExitStep(s: System, a: Action)
    requires Enabled(s, a)
    ensures ExitsBy(s, Apply(s, a), a)
  {
    hide Enabled, Apply, ExitsBy;
    if PollStep(a) { PollExits(s, a); }
    else if OfTasks(a) { NotifyExits(s, a); }
    else if a.DeliverFd? || a.TakeLock? || a.RemoveFired? { HandlerExits(s, a); }
    else if a.SweepNext? || a.FireNotify? { FirerExits(s, a); }
    else if OfInterests(a) { FutureExits(s, a); }
    else { LoopExits(s, a); }
  }

  /** Some worker step at position `j` finds the pool shut down before it. */
  predicate LeavesAt(active: bool, run: seq<Action>, w: nat, j: nat)
  {
    j < |run| && run[j] == CheckActive(w) && (!active || Shutdown in run[..j])
  }

  /**
    Shutdown, over every run: the pool is active as long as nobody has shut it down, and a worker has exited if and only
    if it has come to the top of its loop after that.
  */
  lemma {:induction false} ShutdownRecord(s: System, run: seq<Action>, w: nat)
    requires Legal(s, run)
    ensures Exec(s, run).active <==> s.active && Shutdown !in run
    ensures HasExited(Exec(s, run), w) <==> HasExited(s, w) || exists j :: LeavesAt(s.active, run, w, j)
    decreases |run|
  {
    hide Enabled, Apply, HasExited;
    if run != [] {
      var a, rest, s' := run[0], run[1..], Apply(s, run[0]);
      ExitStep(s, a);
      ShutdownRecord(s', rest, w);
      forall j: nat ensures LeavesAt(s.active, run, w, j) <==> if j == 0 then Leaves(s, a, w) else LeavesAt(s'.active, rest, w, j - 1) {
        if 0 < j < |run| { assert run[..j] == [a] + rest[..j - 1]; }
      }
      if j: nat :| LeavesAt(s'.active, rest, w, j) { assert LeavesAt(s.active, run, w, j + 1); }
      if j: nat :| LeavesAt(s.active, run, w, j) { assert j > 0 ==> LeavesAt(s'.active, rest, w, j - 1); }
      assert Leaves(s, a, w) ==> LeavesAt(s.active, run, w, 0);
    }
  }

  // ---------------------------------------------------------------------------------------------------------
  // What users of the pool can do, in every reachable state

  /** No notify of the task is between its fetch_add and its push. */
  predicate NotBorrowed(s: System, t: nat) { forall v :: 0 <= v < |s.workers| ==> s.workers[v].pending != Some(t) }

  lemma NotBorrowedCount(s: System, t: nat)
    requires NotBorrowed(s, t)
    ensures Total(s.workers, PendingCount, t) == 0
  {
    TotalZero(s.workers, PendingCount, t);
  }

  lemma HandleExists(s: System, t: nat)
    requires Inv(s) && s.handles[t] > 0
    ensures t < |s.tasks|
  {
    hide TasksOK, SlotsOK, BorrowsOK, RunsOK, WorkersOK, ChannelOK, LinksOK, LocksOK, TablesOK, EntriesOK, ListedOK, InterestsOK,
         TellsOK, WaitsOK;
    HeldExists(s, t);
  }

  /** Anybody may spawn, open an fd and shut the pool down. */
  lemma AnybodyMay(s: System)
    requires Reachable(s)
    ensures Enabled(s, SpawnPush) && Enabled(s, OpenFd) && Enabled(s, Shutdown)
  {
    ReachableInv(s);
    ChannelIsOpen(s);
    hide Inv, Reachable;
    OpenChannelTakes(s);
  }

  lemma OpenChannelTakes(s: System)
    requires s.channel.phase == Ch.Published
    ensures Enabled(s, SpawnPush) && Enabled(s, OpenFd) && Enabled(s, Shutdown)
  {
  }

  lemma ChannelIsOpen(s: System)
    requires Inv(s)
    ensures s.channel.phase == Ch.Published
  {
    assert ChannelOK(s.channel, |s.tasks|);
  }

  lemma HandleServes(s: System, w: nat, t: nat)
    requires t < |s.tasks| && s.handles[t] > 0
    ensures Enabled(s, CloneHandle(t)) && (s.tasks[t].level > 0 ==> Enabled(s, ForeignNotify(t)))
    ensures Free(s, w) && (s.workers[w].pc.LocalWork? || s.workers[w].pc.InPoll? || s.workers[w].pc.Dispatching?) ==> Enabled(s, Notify(w, t))
  {
  }

  lemma HandleDrops(s: System, t: nat)
    requires t < |s.tasks| && s.handles[t] > Total(s.interests, SlotCount, t) && Total(s.workers, PendingCount, t) == 0
    ensures Enabled(s, DropHandle(t))
  {
  }

  /** Whoever has a handle may clone it, notify through it, and drop it if no slot and no notify under way needs it. */
  lemma OwnerMay(s: System, w: nat, t: nat)
    requires Reachable(s) && s.handles[t] > 0
    ensures t < |s.tasks| && Enabled(s, CloneHandle(t)) && (s.tasks[t].level > 0 ==> Enabled(s, ForeignNotify(t)))
    ensures Free(s, w) && (s.workers[w].pc.LocalWork? || s.workers[w].pc.InPoll? || s.workers[w].pc.Dispatching?) ==> Enabled(s, Notify(w, t))
    ensures s.handles[t] > Total(s.interests, SlotCount, t) && NotBorrowed(s, t) ==> Enabled(s, DropHandle(t))
  {
    ReachableInv(s);
    HandleExists(s, t);
    hide Inv, Reachable, Enabled, NotBorrowed;
    HandleServes(s, w, t);
    if NotBorrowed(s, t) && s.handles[t] > Total(s.interests, SlotCount, t) {
      NotBorrowedCount(s, t);
      HandleDrops(s, t);
    }
  }

  /** The task a worker polls, and the task in the slot of an interest that is still there. */
  lemma PolledExists(s: System, w: nat)
    requires Inv(s) && w < |s.workers| && s.workers[w].pc.InPoll?
    ensures s.workers[w].pc.task < |s.tasks|
  {
    RunnerFacts(s, w, s.workers[w].pc.task);
  }

  lemma SlotTaskExists(s: System, iid: nat)
    requires Inv(s) && iid < |s.interests| && !s.interests[iid].gone
    ensures s.interests[iid].slot < |s.tasks| && s.handles[s.interests[iid].slot] > 0
  {
    SlotIsHandle(s, iid);
    HandleExists(s, s.interests[iid].slot);
  }

  lemma PollerServes(s: System, w: nat, f: Fd, mask: Mask)
    requires Free(s, w) && s.workers[w].pc.InPoll? && s.workers[w].pc.task < |s.tasks|
    ensures Enabled(s, CloneOwn(w))
    ensures f < |s.tables| && s.tables[f].lock == None && mask != {} ==> Enabled(s, AddInterest(w, f, mask))
  {
  }

  lemma PollerWaits(s: System, w: nat, iid: InterestId)
    requires Free(s, w) && s.workers[w].pc.InPoll? && s.workers[w].pc.task < |s.tasks|
    requires iid < |s.interests| && !s.interests[iid].gone && s.interests[iid].slot < |s.tasks|
    requires s.handles[s.interests[iid].slot] > 0
    requires s.interests[iid].slot == s.workers[w].pc.task || Total(s.workers, PendingCount, s.interests[iid].slot) == 0
    ensures Enabled(s, RegisterInterest(w, iid))
  {
  }

  lemma PollerLooks(s: System, w: nat, iid: InterestId)
    requires Free(s, w) && s.workers[w].pc.InPoll? && s.workers[w].pc.task < |s.tasks| && iid < |s.interests| && !s.interests[iid].gone
    ensures Enabled(s, CheckInterest(w, iid))
  {
  }

  /**
    A future in its poll may hand out a handle of its task, use every fd that is not locked, and look at and register
    on every interest that is still there.
  */
  lemma FutureMay(s: System, w: nat, f: Fd, mask: Mask, iid: InterestId)
    requires Reachable(s) && Free(s, w) && s.workers[w].pc.InPoll?
    ensures Enabled(s, CloneOwn(w))
    ensures f < |s.tables| && s.tables[f].lock == None && mask != {} ==> Enabled(s, AddInterest(w, f, mask))
    ensures iid < |s.interests| && !s.interests[iid].gone ==> Enabled(s, CheckInterest(w, iid))
    ensures iid < |s.interests| && !s.interests[iid].gone
            && (s.interests[iid].slot == s.workers[w].pc.task || NotBorrowed(s, s.interests[iid].slot))
            ==> Enabled(s, RegisterInterest(w, iid))
  {
    ReachableInv(s);
    hide Inv, Reachable, Enabled, NotBorrowed;
    PolledExists(s, w);
    PollerServes(s, w, f, mask);
    if iid < |s.interests| && !s.interests[iid].gone {
      SlotTaskExists(s, iid);
      PollerLooks(s, w, iid);
      if NotBorrowed(s, s.interests[iid].slot) { NotBorrowedCount(s, s.interests[iid].slot); }
      if s.interests[iid].slot == s.workers[w].pc.task || NotBorrowed(s, s.interests[iid].slot) { PollerWaits(s, w, iid); }
    }
  }

  lemma FiredGoes(s: System, iid: InterestId)
    requires iid < |s.interests| && s.interests[iid].fired && !s.interests[iid].gone && s.interests[iid].slot < |s.tasks|
    requires Total(s.workers, WindowCount, iid) == 0 && Total(s.workers, PendingCount, s.interests[iid].slot) == 0
    requires s.handles[s.interests[iid].slot] > 0
    ensures Enabled(s, DropInterest(iid))
  {
  }

  /** An interest that has fired and that no handler is at may be dropped. */
  lemma InterestMayGo(s: System, iid: InterestId)
    requires Reachable(s) && iid < |s.interests| && s.interests[iid].fired && !s.interests[iid].gone
    requires Total(s.workers, WindowCount, iid) == 0 && NotBorrowed(s, s.interests[iid].slot)
    ensures Enabled(s, DropInterest(iid))
  {
    ReachableInv(s);
    hide Inv, Reachable, Enabled, NotBorrowed;
    SlotTaskExists(s, iid);
    NotBorrowedCount(s, s.interests[iid].slot);
    FiredGoes(s, iid);
  }

  /** The kernel may give a waiting worker up to 32 events. */
  lemma KernelMay(s: System, w: nat, f: Fd, word: Mask)
    requires Free(s, w) && s.workers[w].pc.Waiting? && |s.workers[w].pc.batch| < 32
    ensures f < |s.tables| && s.tables[f].armed.Some? && Reportable(s.tables[f].armed.value, word) ==> Enabled(s, DeliverFd(w, f, word))
    ensures s.channel.armed && s.channel.count > 0 && w !in s.channel.handlers ==> Enabled(s, DeliverChannel(w))
  {
  }

  /** A steal from the own deque may be inconsistent; the worker then polls the events without blocking. */
  lemma InconsistentStealPolls(s: System, w: nat)
    requires Free(s, w) && s.workers[w].pc == Stealing
    ensures Enabled(s, StealInconsistent(w)) && Enabled(Apply(s, StealInconsistent(w)), ReturnFromWait(w))
  {
  }
}
