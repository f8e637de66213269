/** Whole runs of the composed system: an interest fires once and then never again, and a wake that is lost stays lost. */
module WakeLives {
  import opened Prelude
  import opened Interests
  import opened TaskProtocol
  import opened WakeSystem
  import opened WakeInvariant
  import opened WakeProofs
  import opened WakeInterestProofs
  import opened WakeTheorems
  import Ch = CustomEvents

  predicate Fired(s: System, iid: nat) { iid < |s.interests| && s.interests[iid].fired }

  /** The step stores `fired` for the interest. */
  predicate Fires(s: System, a: Action, iid: nat)
    requires Enabled(s, a)
  {
    && a.SweepNext?
    && var p := s.workers[a.w].pc; var list := s.tables[p.fd].list;
       p.i < |list| && Hit(list[p.i].mask, p.word) && list[p.i].who == iid
  }

  /** The step calls `notify` for the interest. */
  predicate Reports(s: System, a: Action, iid: nat)
    requires Enabled(s, a)
  {
    a.FireNotify? && s.workers[a.w].pc.iid == iid
  }

  /** How often `fired` is stored for the interest in a run, and how often its task is notified for it. */
  function Firings(s: System, run: seq<Action>, iid: nat): nat
    requires Legal(s, run)
    decreases |run|
  {
    if run == [] then 0 else One(Fires(s, run[0], iid)) + Firings(Apply(s, run[0]), run[1..], iid)
  }

  function Reportings(s: System, run: seq<Action>, iid: nat): nat
    requires Legal(s, run)
    decreases |run|
  {
    if run == [] then 0 else One(Reports(s, run[0], iid)) + Reportings(Apply(s, run[0]), run[1..], iid)
  }

  /** A step sets the flag of the interest it fires, which was clear, and of no other; no step clears a flag. */
  lemma FiredStep(s: System, a: Action, iid: nat)
    requires Inv(s) && Enabled(s, a)
    ensures One(Fired(Apply(s, a), iid)) == One(Fired(s, iid)) + One(Fires(s, a, iid))
  {
    if a.SweepNext? {
      FiredBySweep(s, a.w, iid);
    } else {
      hide Inv, Enabled;
      FiredByOther(s, a, iid);
    }
  }

  /** Only these steps write an interest. */
  predicate Writes(a: Action) { a.AddInterest? || a.RegisterInterest? || a.DropInterest? || a.FireNotify? }

  lemma InterestsUntouched(s: System, a: Action)
    requires Enabled(s, a) && OfInterests(a) && !a.SweepNext? && !Writes(a)
    ensures Apply(s, a).interests == s.interests
  {
  }

  lemma InterestsOutOfReach(s: System, a: Action)
    requires Enabled(s, a) && !OfInterests(a)
    ensures Apply(s, a).interests == s.interests
  {
    if OfTasks(a) { assert ApplyToTasks(s, a).interests == s.interests; }
    else { assert ApplyToLoop(s, a).interests == s.interests; }
  }

  lemma FiredBySweep(s: System, w: nat, iid: nat)
    requires Inv(s) && Enabled(s, SweepNext(w))
    ensures One(Fired(Apply(s, SweepNext(w)), iid)) == One(Fired(s, iid)) + One(Fires(s, SweepNext(w), iid))
  {
    hide TasksOK, TokensOK, RefsOK, SlotsOK, BorrowsOK, RunsOK, WorkersOK, ChannelOK, LinksOK, LocksOK, TablesOK, EntriesOK,
         ListedOK, InterestsOK, TellsOK, WaitsOK;
    if s.workers[w].pc.i < |s.tables[s.workers[w].pc.fd].list| { ListedIsUnfired(s, w); }
  }

  lemma FiredByWriter(s: System, a: Action, iid: nat)
    requires Enabled(s, a) && Writes(a)
    ensures Fired(Apply(s, a), iid) == Fired(s, iid)
  {
  }

  lemma FiredByOther(s: System, a: Action, iid: nat)
    requires Enabled(s, a) && !a.SweepNext?
    ensures Fired(Apply(s, a), iid) == Fired(s, iid)
  {
    hide Enabled;
    if Writes(a) { FiredByWriter(s, a, iid); }
    else if OfInterests(a) { InterestsUntouched(s, a); }
    else { InterestsOutOfReach(s, a); }
  }

  /** `fired` is stored exactly once for every interest that ends up fired, never for one that does not. */
  lemma {:induction false} FiringsSoFar(s: System, run: seq<Action>, iid: nat)
    requires Inv(s) && Legal(s, run)
    ensures Firings(s, run, iid) + One(Fired(s, iid)) == One(Fired(Exec(s, run), iid))
    decreases |run|
  {
    hide Inv;
    if run != [] {
      FiredStep(s, run[0], iid);
      StepKeepsInv(s, run[0]);
      FiringsSoFar(Apply(s, run[0]), run[1..], iid);
    }
  }

  // ---------------------------------------------------------------------------------------------------------
  // One notify for each firing

  /** Handlers between storing `fired` for the interest and calling notify. */
  function Underway(s: System, iid: nat): nat { Total(s.workers, FiringCount, iid) }

  ghost predicate SameFirings(s: System, s': System)
  {
    |s'.workers| == |s.workers|
    && forall v, i: nat :: 0 <= v < |s.workers| ==> FiringCount(s'.workers[v], i) == FiringCount(s.workers[v], i)
  }

  lemma TasksFireNothing(s: System, a: Action)
    requires Enabled(s, a) && OfTasks(a)
    ensures SameFirings(s, Apply(s, a))
  {
    hide NotifyTask, LoadTask, BeginTask, EndTask, SleepTask, FinishTask;
    assert Apply(s, a) == ApplyToTasks(s, a);
  }

  lemma InterestsFireNothing(s: System, a: Action)
    requires Enabled(s, a) && OfInterests(a) && !a.SweepNext? && !a.FireNotify?
    ensures SameFirings(s, Apply(s, a))
  {
  }

  lemma LoopFiresNothing(s: System, a: Action)
    requires Enabled(s, a) && !OfTasks(a) && !OfInterests(a)
    ensures SameFirings(s, Apply(s, a))
  {
    hide Ch.Apply;
    assert Apply(s, a) == ApplyToLoop(s, a);
  }

  lemma SweepUnderway(s: System, w: nat, iid: nat)
    requires Enabled(s, SweepNext(w))
    ensures Underway(SweepStep(s, w), iid) == Underway(s, iid) + One(Fires(s, SweepNext(w), iid))
  {
    TotalSet(s.workers, w, SweepStep(s, w).workers[w], FiringCount, iid);
  }

  lemma NotifyUnderway(s: System, w: nat, iid: nat)
    requires Enabled(s, FireNotify(w))
    ensures Underway(FireNotifyStep(s, w), iid) + One(Reports(s, FireNotify(w), iid)) == Underway(s, iid)
  {
    var k := FireNotifyStep(s, w).workers[w];
    assert FireNotifyStep(s, w).workers == s.workers[w := k];
    TotalSet(s.workers, w, k, FiringCount, iid);
  }

  /** A firing goes underway when it is stored and stops being so when it is reported. */
  lemma UnderwayStep(s: System, a: Action, iid: nat)
    requires Enabled(s, a)
    ensures Underway(Apply(s, a), iid) + One(Reports(s, a, iid)) == Underway(s, iid) + One(Fires(s, a, iid))
  {
    hide Enabled, SweepStep, FireNotifyStep;
    if a.SweepNext? { SweepUnderway(s, a.w, iid); }
    else if a.FireNotify? { NotifyUnderway(s, a.w, iid); }
    else {
      if OfTasks(a) { TasksFireNothing(s, a); }
      else if OfInterests(a) { InterestsFireNothing(s, a); }
      else { LoopFiresNothing(s, a); }
      hide Apply;
      TotalSame(Apply(s, a).workers, s.workers, FiringCount, iid);
    }
  }

  lemma {:induction false} ReportingsSoFar(s: System, run: seq<Action>, iid: nat)
    requires Legal(s, run)
    ensures Underway(Exec(s, run), iid) + Reportings(s, run, iid) == Underway(s, iid) + Firings(s, run, iid)
    decreases |run|
  {
    hide Underway, Fires, Reports, Apply, Enabled;
    if run != [] {
      UnderwayStep(s, run[0], iid);
      ReportingsSoFar(Apply(s, run[0]), run[1..], iid);
    }
  }

  lemma UnderwayIsAboutToNotify(s: System, iid: nat)
    ensures Underway(s, iid) > 0 <==> AboutToNotify(s, iid)
  {
    if Underway(s, iid) > 0 { var w := TotalWitness(s.workers, FiringCount, iid); }
    if w :| 0 <= w < |s.workers| && s.workers[w].pc.AtFire? && s.workers[w].pc.iid == iid {
      TotalAtLeast(s.workers, w, FiringCount, iid);
    }
  }

  /**
    The life of an interest over a whole run, for any number of workers and any interleaving: `fired` is stored for
    it once if it ends up fired and never otherwise, and the task in its slot is notified once for that firing,
    unless the handler is just about to.
  */
  lemma InterestLife(n: nat, run: seq<Action>, iid: nat)
    requires Legal(Init(n), run)
    ensures Firings(Init(n), run, iid) == One(Fired(Exec(Init(n), run), iid))
    ensures Reportings(Init(n), run, iid)
            == One(Fired(Exec(Init(n), run), iid) && !AboutToNotify(Exec(Init(n), run), iid))
  {
    InitInv(n);
    hide Inv;
    FiringsSoFar(Init(n), run, iid);
    ReportingsSoFar(Init(n), run, iid);
    TotalZero(Init(n).workers, FiringCount, iid);
    hide Firings, Reportings, AboutToNotify;
    UnderwayIsAboutToNotify(Exec(Init(n), run), iid);
  }

  /**
    A limit of the code (src/epoll/net.rs:78-79): once an interest has fired and its notify is made, no continuation
    whatever notifies for it again.  A future that meets WouldBlock and re-registers on it waits for nothing.
  */
  lemma SpentInterestIsSilent(s: System, run: seq<Action>, iid: nat)
    requires Reachable(s) && Legal(s, run) && Fired(s, iid) && !AboutToNotify(s, iid)
    ensures Reportings(s, run, iid) == 0 && !AboutToNotify(Exec(s, run), iid)
  {
    ReachableInv(s);
    hide Inv, Reachable;
    FiringsSoFar(s, run, iid);
    ReportingsSoFar(s, run, iid);
    hide Firings, Reportings, AboutToNotify;
    UnderwayIsAboutToNotify(s, iid);
    UnderwayIsAboutToNotify(Exec(s, run), iid);
  }

  // ---------------------------------------------------------------------------------------------------------
  // A future that has changed tasks

  /** Task `t` has seen the interest unfired, has not been notified since, and the interest's notify is spent. */
  predicate Overtaken(s: System, w: nat, t: nat, seen: nat, iid: nat)
  {
    && Free(s, w) && t < |s.tasks| && iid in s.tasks[t].waits && s.tasks[t].level == seen
    && Fired(s, iid) && !AboutToNotify(s, iid)
  }

  lemma ReachableStep(s: System, a: Action)
    requires Reachable(s) && Enabled(s, a)
    ensures Reachable(Apply(s, a))
  {
    hide Enabled, Apply;
    var n: nat, run: seq<Action> :| Legal(Init(n), run) && s == Exec(Init(n), run);
    Extend(Init(n), run, a);
  }

  lemma {:induction false} Extend(s: System, run: seq<Action>, a: Action)
    requires Legal(s, run) && Enabled(Exec(s, run), a)
    ensures Legal(s, run + [a]) && Exec(s, run + [a]) == Apply(Exec(s, run), a)
    decreases |run|
  {
    hide Enabled, Apply;
    if run != [] {
      Extend(Apply(s, run[0]), run[1..], a);
      assert (run + [a])[1..] == run[1..] + [a];
    } else {
      assert [a][1..] == [];
      assert Legal(Apply(s, a), []);
    }
  }

  lemma OvertakenRegisters(s: System, w: nat, t: nat, seen: nat, iid: nat)
    requires Overtaken(s, w, t, seen, iid) && s.workers[w].pc == InPoll(t, seen) && Enabled(s, RegisterInterest(w, iid))
    ensures var s' := Apply(s, RegisterInterest(w, iid)); Overtaken(s', w, t, seen, iid) && s'.workers[w].pc == InPoll(t, seen)
  {
    assert Apply(s, RegisterInterest(w, iid)).workers == s.workers;
  }

  lemma OvertakenEnds(s: System, w: nat, t: nat, seen: nat, iid: nat)
    requires Overtaken(s, w, t, seen, iid) && s.workers[w].pc == InPoll(t, seen)
    ensures Enabled(s, PollPending(w))
    ensures var s' := Apply(s, PollPending(w)); Overtaken(s', w, t, seen, iid) && s'.workers[w].pc == AtSwap(t, seen)
  {
    assert Apply(s, PollPending(w)) == PendingStep(s, w);
  }

  lemma OvertakenSleeps(s: System, w: nat, t: nat, seen: nat, iid: nat)
    requires Overtaken(s, w, t, seen, iid) && s.workers[w].pc == AtSwap(t, seen)
    ensures Enabled(s, Swap(w)) && Overtaken(Apply(s, Swap(w)), w, t, 0, iid)
  {
    assert Apply(s, Swap(w)) == SwapStep(s, w);
  }

  /**
    How a wake is lost.  If the interest fires between a task's look at it and its registration, and the notify goes
    to another task, then the task goes to sleep at level 0 waiting on it and no continuation notifies for it.  This
    happens to interests only that another task than their maker has polled.
  */
  lemma MovedFutureLosesWake(s: System, w: nat, t: nat, seen: nat, iid: nat) returns (asleep: System)
    requires Reachable(s) && Overtaken(s, w, t, seen, iid) && s.workers[w].pc == InPoll(t, seen)
    requires Enabled(s, RegisterInterest(w, iid))
    ensures Reachable(asleep) && Overtaken(asleep, w, t, 0, iid) && iid in asleep.moved
    ensures forall run :: Legal(asleep, run) ==> Reportings(asleep, run, iid) == 0
  {
    hide Reachable, Enabled, Apply, Legal, Reportings, Overtaken;
    OvertakenRegisters(s, w, t, seen, iid);
    ReachableStep(s, RegisterInterest(w, iid));
    var s1 := Apply(s, RegisterInterest(w, iid));
    OvertakenEnds(s1, w, t, seen, iid);
    ReachableStep(s1, PollPending(w));
    var s2 := Apply(s1, PollPending(w));
    OvertakenSleeps(s2, w, t, seen, iid);
    ReachableStep(s2, Swap(w));
    asleep := Apply(s2, Swap(w));
    SpentSleeperMoved(asleep, w, t, iid);
    forall run | Legal(asleep, run) ensures Reportings(asleep, run, iid) == 0 {
      SpentInterestIsSilent(asleep, run, iid) by { OvertakenIsSpent(asleep, w, t, 0, iid); }
    }
  }

  lemma OvertakenIsSpent(s: System, w: nat, t: nat, seen: nat, iid: nat)
    requires Overtaken(s, w, t, seen, iid)
    ensures Fired(s, iid) && !AboutToNotify(s, iid)
  {
  }

  lemma SpentSleeperMoved(s: System, w: nat, t: nat, iid: nat)
    requires Reachable(s) && Overtaken(s, w, t, 0, iid)
    ensures iid in s.moved
  {
    ReachableInv(s);
    TaskIsInv(s, t);
    hide Inv, Reachable;
    ZeroIsUnfinished(s.tasks[t]);
    if iid !in s.moved { EndToEndWake(s, t, iid); }
  }

  // ---------------------------------------------------------------------------------------------------------
  // A notify from a thread that is no worker

  predicate HasNot(k: Worker, t: nat) { t !in k.deque && RunningTask(k.pc) != Some(t) && k.pending != Some(t) }

  /** The task is owed a poll and nobody has it. */
  predicate Lost(s: System, t: nat)
  {
    && t < |s.tasks| && !s.tasks[t].done && s.tasks[t].level > 0
    && t !in s.channel.queue && forall v :: 0 <= v < |s.workers| ==> HasNot(s.workers[v], t)
  }

  lemma LostIsUnheld(s: System, t: nat)
    requires t < |s.tasks|
    ensures Lost(s, t) <==> !s.tasks[t].done && s.tasks[t].level > 0 && !Held(s, t)
  {
    forall v | 0 <= v < |s.workers| ensures HasNot(s.workers[v], t) <==> TokenCount(s.workers[v], t) == 0 {
      HasNoToken(s.workers[v], t);
    }
  }

  lemma HasNoToken(k: Worker, t: nat)
    ensures HasNot(k, t) <==> TokenCount(k, t) == 0
  {
    assert t in k.deque <==> Occurrences(k.deque, t) > 0;
  }

  /** No poll of the task began: it is the same, or has been notified. */
  predicate Unpolled(s: System, s': System, t: nat)
    requires t < |s.tasks|
  {
    t < |s'.tasks| && (s'.tasks[t].log == s.tasks[t].log || s'.tasks[t].log == s.tasks[t].log + [Notified])
  }

  lemma RunnerLeavesLost(s: System, a: Action, t: nat)
    requires Lost(s, t) && Enabled(s, a) && PollStep(a)
    ensures Lost(Apply(s, a), t) && Unpolled(s, Apply(s, a), t)
  {
    assert HasNot(s.workers[a.w], t);
    assert Apply(s, a) == ApplyToTasks(s, a);
  }

  lemma NotifyLeavesLost(s: System, a: Action, t: nat)
    requires Lost(s, t) && Enabled(s, a) && OfTasks(a) && !PollStep(a)
    ensures Lost(Apply(s, a), t) && Unpolled(s, Apply(s, a), t)
  {
    assert Apply(s, a) == ApplyToTasks(s, a);
  }

  /** The step touches no deque, no do_poll, no notify and no level. */
  ghost predicate Apart(s: System, s': System)
  {
    && |s'.tasks| == |s.tasks| && |s'.workers| == |s.workers| && s'.channel.queue == s.channel.queue
    && (forall t :: 0 <= t < |s.tasks| ==>
          s'.tasks[t].level == s.tasks[t].level && s'.tasks[t].done == s.tasks[t].done && s'.tasks[t].log == s.tasks[t].log)
    && (forall v :: 0 <= v < |s.workers| ==>
          s'.workers[v].deque == s.workers[v].deque && s'.workers[v].pending == s.workers[v].pending
          && RunningTask(s'.workers[v].pc) == RunningTask(s.workers[v].pc))
  }

  predicate PollStep(a: Action) { a.LoadLevel? || a.BeginPoll? || a.PollPending? || a.PollReady? || a.Swap? }

  lemma ApartLeavesLost(s: System, s': System, t: nat)
    requires Lost(s, t) && Apart(s, s')
    ensures Lost(s', t) && Unpolled(s, s', t)
  {
    forall v | 0 <= v < |s.workers| ensures HasNot(s'.workers[v], t) { assert HasNot(s.workers[v], t); }
  }

  lemma SameIsApart(s: System, s': System)
    requires s'.tasks == s.tasks && s'.workers == s.workers && s'.channel.queue == s.channel.queue
    ensures Apart(s, s')
  {
  }

  lemma GoIsApart(s: System, w: nat, pc: Activity)
    requires w < |s.workers| && RunningTask(pc) == RunningTask(s.workers[w].pc)
    ensures Apart(s, Go(s, w, pc))
  {
  }

  lemma TopIsApart(s: System, w: nat)
    ensures Enabled(s, CheckActive(w)) ==> Apart(s, CheckActiveStep(s, w))
    ensures Enabled(s, LocalDone(w)) ==> Apart(s, LocalDoneStep(s, w))
  {
    hide Apart;
    if Enabled(s, CheckActive(w)) { GoIsApart(s, w, CheckActiveStep(s, w).workers[w].pc); }
    if Enabled(s, LocalDone(w)) { GoIsApart(s, w, LocalDoneStep(s, w).workers[w].pc); }
  }

  lemma WaitIsApart(s: System, w: nat)
    ensures Enabled(s, StealEmpty(w)) ==> Apart(s, StealEmptyStep(s, w))
    ensures Enabled(s, StealInconsistent(w)) ==> Apart(s, StealInconsistentStep(s, w))
  {
    hide Apart;
    if Enabled(s, StealEmpty(w)) { GoIsApart(s, w, StealEmptyStep(s, w).workers[w].pc); }
    if Enabled(s, StealInconsistent(w)) { GoIsApart(s, w, StealInconsistentStep(s, w).workers[w].pc); }
  }

  lemma ReturnIsApart(s: System, w: nat)
    ensures Enabled(s, ReturnFromWait(w)) ==> Apart(s, ReturnStep(s, w))
    ensures Enabled(s, Dispatch(w)) ==> Apart(s, DispatchStep(s, w))
  {
    hide Apart;
    if Enabled(s, ReturnFromWait(w)) { GoIsApart(s, w, ReturnStep(s, w).workers[w].pc); }
    if Enabled(s, Dispatch(w)) { GoIsApart(s, w, DispatchStep(s, w).workers[w].pc); }
  }

  /** Tables, interests, handles and the channel's count and handlers may change with the move. */
  lemma MoveIsApart(s: System, w: nat, s': System)
    requires w < |s.workers| && w < |s'.workers| && RunningTask(s'.workers[w].pc) == RunningTask(s.workers[w].pc)
    requires s'.workers == s.workers[w := s.workers[w].(pc := s'.workers[w].pc)]
    requires s'.tasks == s.tasks && s'.channel.queue == s.channel.queue
    ensures Apart(s, s')
  {
  }

  lemma LockIsApart(s: System, w: nat)
    requires Enabled(s, TakeLock(w))
    ensures Apart(s, TakeLockStep(s, w))
  {
    hide Apart;
    MoveIsApart(s, w, TakeLockStep(s, w));
  }

  lemma RemoveIsApart(s: System, w: nat)
    requires Enabled(s, RemoveFired(w))
    ensures Apart(s, RemoveFiredStep(s, w))
  {
    hide Apart;
    MoveIsApart(s, w, RemoveFiredStep(s, w));
  }

  lemma SweepIsApart(s: System, w: nat)
    requires Enabled(s, SweepNext(w))
    ensures Apart(s, SweepStep(s, w))
  {
    hide Apart;
    MoveIsApart(s, w, SweepStep(s, w));
  }

  lemma DeliverIsApart(s: System, w: nat, f: Fd, word: Mask)
    requires Enabled(s, DeliverFd(w, f, word))
    ensures Apart(s, DeliverFdStep(s, w, f, word))
  {
    hide Apart;
    MoveIsApart(s, w, DeliverFdStep(s, w, f, word));
  }

  lemma SpawnWriteIsApart(s: System)
    requires Enabled(s, SpawnWrite)
    ensures Apart(s, SpawnWriteStep(s))
  {
  }

  lemma ServeIsApart(s: System, w: nat)
    requires Enabled(s, DeliverChannel(w))
    ensures Apart(s, DeliverChannelStep(s, w))
  {
    hide Apart;
    MoveIsApart(s, w, DeliverChannelStep(s, w));
  }

  lemma CountIsApart(s: System, w: nat)
    requires Enabled(s, ReadCount(w))
    ensures Apart(s, ReadCountStep(s, w))
  {
    hide Apart;
    SameIsApart(s, ReadCountStep(s, w));
  }

  lemma RearmIsApart(s: System, w: nat)
    requires Enabled(s, RearmChannel(w))
    ensures Apart(s, RearmChannelStep(s, w))
  {
    hide Apart;
    MoveIsApart(s, w, RearmChannelStep(s, w));
  }

  lemma CheckIsApart(s: System, w: nat, iid: InterestId)
    requires Enabled(s, CheckInterest(w, iid))
    ensures Apart(s, CheckInterestStep(s, w, iid))
  {
  }

  lemma RegisterIsApart(s: System, w: nat, iid: InterestId)
    requires Enabled(s, RegisterInterest(w, iid))
    ensures Apart(s, RegisterInterestStep(s, w, iid))
  {
  }

  lemma DropIsApart(s: System, iid: InterestId)
    requires Enabled(s, DropInterest(iid))
    ensures Apart(s, DropInterestStep(s, iid))
  {
  }

  lemma AddIsApart(s: System, w: nat, f: Fd, mask: Mask)
    requires Enabled(s, AddInterest(w, f, mask))
    ensures Apart(s, AddInterestStep(s, w, f, mask))
  {
  }

  lemma InterestStepIsApart(s: System, a: Action)
    requires Enabled(s, a) && OfInterests(a) && !a.FireNotify?
    ensures Apart(s, Apply(s, a))
  {
    hide Apart, Enabled, DeliverFdStep, AddInterestStep, CheckInterestStep, RegisterInterestStep, DropInterestStep, TakeLockStep,
         SweepStep, RemoveFiredStep;
    match a {
      case DeliverFd(w, f, word) => DeliverIsApart(s, w, f, word);
      case OpenFd => SameIsApart(s, Apply(s, a));
      case AddInterest(w, f, mask) => AddIsApart(s, w, f, mask);
      case CheckInterest(w, iid) => CheckIsApart(s, w, iid);
      case RegisterInterest(w, iid) => RegisterIsApart(s, w, iid);
      case DropInterest(iid) => DropIsApart(s, iid);
      case TakeLock(w) => LockIsApart(s, w);
      case SweepNext(w) => SweepIsApart(s, w);
      case RemoveFired(w) => RemoveIsApart(s, w);
    }
  }

  lemma LoopStepIsApart(s: System, a: Action)
    requires Enabled(s, a) && !OfTasks(a) && !OfInterests(a) && !a.SpawnPush? && !a.Steal? && !a.PopDatum?
    ensures Apart(s, Apply(s, a))
  {
    hide Apart, Enabled, SpawnWriteStep, DeliverChannelStep, DispatchStep, ReadCountStep, RearmChannelStep, CheckActiveStep,
         LocalDoneStep, StealEmptyStep, StealInconsistentStep, ReturnStep;
    match a {
      case SpawnWrite => SpawnWriteIsApart(s);
      case CheckActive(w) => TopIsApart(s, w);
      case LocalDone(w) => TopIsApart(s, w);
      case StealEmpty(w) => WaitIsApart(s, w);
      case StealInconsistent(w) => WaitIsApart(s, w);
      case DeliverChannel(w) => ServeIsApart(s, w);
      case ReturnFromWait(w) => ReturnIsApart(s, w);
      case Dispatch(w) => ReturnIsApart(s, w);
      case ReadCount(w) => CountIsApart(s, w);
      case RearmChannel(w) => RearmIsApart(s, w);
      case Shutdown => SameIsApart(s, Apply(s, a));
    }
  }

  lemma FireLeavesLost(s: System, w: nat, t: nat)
    requires Lost(s, t) && Enabled(s, FireNotify(w))
    ensures Lost(Apply(s, FireNotify(w)), t) && Unpolled(s, Apply(s, FireNotify(w)), t)
  {
    assert HasNot(s.workers[w], t);
  }

  lemma PassingLeavesLost(s: System, a: Action, t: nat)
    requires Lost(s, t) && Enabled(s, a) && (a.Steal? || a.PopDatum?)
    ensures Lost(Apply(s, a), t) && Unpolled(s, Apply(s, a), t)
  {
    assert HasNot(s.workers[a.w], t);
  }

  lemma SpawnLeavesLost(s: System, t: nat)
    requires Lost(s, t) && Enabled(s, SpawnPush)
    ensures Lost(Apply(s, SpawnPush), t) && Unpolled(s, Apply(s, SpawnPush), t)
  {
  }

  lemma LostStep(s: System, a: Action, t: nat)
    requires Lost(s, t) && Enabled(s, a)
    ensures Lost(Apply(s, a), t) && Unpolled(s, Apply(s, a), t)
  {
    hide Lost, Unpolled, Enabled, Apply, Apart;
    if PollStep(a) { RunnerLeavesLost(s, a, t); }
    else if OfTasks(a) { NotifyLeavesLost(s, a, t); }
    else if a.FireNotify? { FireLeavesLost(s, a.w, t); }
    else if a.SpawnPush? { SpawnLeavesLost(s, t); }
    else if a.Steal? || a.PopDatum? { PassingLeavesLost(s, a, t); }
    else {
      if OfInterests(a) { InterestStepIsApart(s, a); } else { LoopStepIsApart(s, a); }
      ApartLeavesLost(s, Apply(s, a), t);
    }
  }

  lemma LostExists(s: System, t: nat)
    requires Lost(s, t)
    ensures t < |s.tasks|
  {
  }

  lemma UnpolledBegan(s: System, s': System, t: nat)
    requires t < |s.tasks| && Unpolled(s, s', t)
    ensures t < |s'.tasks| && CountOf(s'.tasks[t].log, Began) == CountOf(s.tasks[t].log, Began)
  {
  }

  /** A lost task is never polled again, whatever the pool and its users do and however often it is notified. */
  lemma {:induction false} LostForGood(s: System, run: seq<Action>, t: nat)
    requires Lost(s, t) && Legal(s, run)
    ensures Lost(Exec(s, run), t) && t < |s.tasks| && t < |Exec(s, run).tasks|
    ensures CountOf(Exec(s, run).tasks[t].log, Began) == CountOf(s.tasks[t].log, Began)
    decreases |run|
  {
    hide Lost, Unpolled, Enabled, Apply, CountOf;
    LostExists(s, t);
    if run != [] {
      LostStep(s, run[0], t);
      UnpolledBegan(s, Apply(s, run[0]), t);
      LostForGood(Apply(s, run[0]), run[1..], t);
    }
  }

  lemma LostBreaksInv(s: System, t: nat)
    requires Lost(s, t)
    ensures !Inv(s)
  {
    LostIsUnheld(s, t);
    TotalZero(s.workers, TokenCount, t);
    assert Total(s.workers, TokenCount, t) + Occurrences(s.channel.queue, t) != Due(s.tasks, t);
  }

  /**
    Exactly when a notify from a thread that is no worker is harmless (src/evloop/threadpool/mod.rs:309-324): on a
    task that is not suspended it keeps the invariant; on a suspended one it loses the task for good.
  */
  lemma OutsideNotify(s: System, t: nat)
    requires Reachable(s) && t < |s.tasks|
    ensures s.tasks[t].level > 0 <==> Inv(NotifyFromOutside(s, t))
    ensures s.tasks[t].level == 0 <==> Lost(NotifyFromOutside(s, t), t)
  {
    ReachableInv(s);
    HeldIffDue(s, t);
    OutsideHolds(s, t);
    hide Lost, Held;
    LostIsUnheld(NotifyFromOutside(s, t), t);
    TaskIsInv(s, t);
    ZeroIsUnfinished(s.tasks[t]);
    if s.tasks[t].level > 0 { KeepOutsideNotify(s, t); } else { LostBreaksInv(NotifyFromOutside(s, t), t); }
  }

  lemma OutsideHolds(s: System, t: nat)
    requires t < |s.tasks|
    ensures Held(NotifyFromOutside(s, t), t) <==> Held(s, t)
  {
  }

  lemma TaskIsInv(s: System, t: nat)
    requires Inv(s) && t < |s.tasks|
    ensures TaskInv(s.tasks[t])
  {
    hide TaskInv;
  }
}
