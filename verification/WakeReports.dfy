/**
  Whether a wake can still come.  In a pool that has not been shut down some continuation reports an interest exactly
  if it is unfired or about to be notified: the pool is run to rest, the kernel hangs the fd up, and the pool is run
  to rest again.
*/
module WakeReports {
  import opened Prelude
  import opened Interests
  import opened TaskProtocol
  import opened WakeSystem
  import opened WakeInvariant
  import opened WakeTheorems
  import opened WakeRest
  import opened WakeLives
  import opened WakeLedger
  import Ch = CustomEvents

  lemma {:induction false} Join(s: System, first: seq<Action>, second: seq<Action>)
    requires Legal(s, first) && Legal(Exec(s, first), second)
    ensures Legal(s, first + second) && Exec(s, first + second) == Exec(Exec(s, first), second)
    decreases |first|
  {
    hide Enabled, Apply;
    if first == [] {
      assert first + second == second;
    } else {
      Join(Apply(s, first[0]), first[1..], second);
      assert (first + second)[1..] == first[1..] + second;
    }
  }

  /** Every state can be run to rest. */
  lemma {:induction false} RunToRest(s: System) returns (run: seq<Action>)
    requires Inv(s)
    ensures Legal(s, run) && InternalRun(run) && AtRest(Exec(s, run))
    decreases Work(s)
  {
    hide Inv, Enabled, Apply, Work, Internal;
    if AtRest(s) {
      run := [];
    } else {
      var a :| Internal(a) && Enabled(s, a);
      InternalStepWorks(s, a);
      StepKeepsInv(s, a);
      var rest := RunToRest(Apply(s, a));
      run := [a] + rest;
      assert run[1..] == rest;
    }
  }

  // ---------------------------------------------------------------------------------------------------------
  // Workers exit after a shutdown only

  ghost predicate NoneExited(s: System) { forall v :: 0 <= v < |s.workers| ==> !s.workers[v].pc.Exited? }

  lemma {:induction false} ExitRun(s: System, run: seq<Action>)
    requires Legal(s, run)
    ensures |Exec(s, run).workers| == |s.workers| && (InternalRun(run) ==> Exec(s, run).active == s.active)
    decreases |run|
  {
    hide Enabled, Apply;
    if run != [] {
      ExitStep(s, run[0]);
      ExitRun(Apply(s, run[0]), run[1..]);
    }
  }

  lemma ActiveHasAllWorkers(s: System)
    requires Reachable(s) && s.active
    ensures NoneExited(s)
  {
    var n: nat, run: seq<Action> :| Legal(Init(n), run) && s == Exec(Init(n), run);
    hide Legal, Exec;
    forall v | 0 <= v < |s.workers| ensures !s.workers[v].pc.Exited? {
      ShutdownRecord(Init(n), run, v);
      assert forall j: nat :: !LeavesAt(true, run, v, j);
    }
  }

  // ---------------------------------------------------------------------------------------------------------
  // A hang-up on its way

  /** The worker has a hang-up of the fd in its batch, or handles it and has passed no entry over. */
  predicate Carries(k: Worker, f: nat)
  {
    || OnFd(f, {HUP}) in BatchOf(k.pc)
    || (HandlesFd(k.pc) && k.pc.fd == f && k.pc.word == {HUP} && (HoldsLock(k.pc) ==> k.pc.i == 0))
  }

  predicate By(a: Action, w: nat) { !a.SpawnWrite? && Internal(a) && a.w == w }

  lemma OtherTaskSteps(s: System, a: Action, w: nat)
    requires Enabled(s, a) && Internal(a) && OfTasks(a) && !By(a, w) && w < |s.workers|
    ensures w < |Apply(s, a).workers| && Apply(s, a).workers[w] == s.workers[w]
  {
    hide NotifyTask, LoadTask, BeginTask, EndTask, SleepTask, FinishTask;
    assert Apply(s, a) == ApplyToTasks(s, a);
  }

  lemma OtherHandlerSteps(s: System, a: Action, w: nat)
    requires Enabled(s, a) && Internal(a) && OfInterests(a) && !By(a, w) && w < |s.workers|
    ensures w < |Apply(s, a).workers| && Apply(s, a).workers[w] == s.workers[w]
  {
    hide NotifyTask;
  }

  lemma OtherLoopSteps(s: System, a: Action, w: nat)
    requires Enabled(s, a) && Internal(a) && !OfTasks(a) && !OfInterests(a) && !By(a, w) && w < |s.workers|
    ensures w < |Apply(s, a).workers| && Apply(s, a).workers[w] == s.workers[w]
  {
    hide Ch.Apply;
    assert Apply(s, a) == ApplyToLoop(s, a);
  }

  /** The loop moves of the carrier. */
  lemma LoopCarries(s: System, a: Action, w: nat, f: nat)
    requires Enabled(s, a) && Internal(a) && !OfTasks(a) && !OfInterests(a) && By(a, w) && w < |s.workers|
    requires Carries(s.workers[w], f)
    ensures w < |Apply(s, a).workers| && Carries(Apply(s, a).workers[w], f)
  {
    hide Ch.Apply;
    assert Apply(s, a) == ApplyToLoop(s, a);
  }

  /** The table the carrier sweeps is not empty while the interest is unfired. */
  lemma TableNotEmpty(s: System, iid: nat)
    requires Inv(s) && iid < |s.interests| && !s.interests[iid].fired
    ensures s.interests[iid].fd < |s.tables| && s.tables[s.interests[iid].fd].list != []
  {
    hide TasksOK, TokensOK, RefsOK, SlotsOK, BorrowsOK, RunsOK, WorkersOK, ChannelOK, LinksOK, LocksOK, TablesOK, EntriesOK, ListedOK,
         InterestsOK, TellsOK, WaitsOK;
    UnfiredIsListed(s, iid);
  }

  lemma SweepCarries(s: System, w: nat, f: nat)
    requires Enabled(s, SweepNext(w)) && Carries(s.workers[w], f) && f < |s.tables| && s.tables[f].list != []
    ensures w < |SweepStep(s, w).workers| && Carries(SweepStep(s, w).workers[w], f)
  {
    hide Union, RearmMask;
    var list := s.tables[f].list;
    assert HUP in {HUP} * {HUP, ERROR};
    assert Hit(list[0].mask, {HUP});
  }

  lemma HandlerCarries(s: System, a: Action, w: nat, f: nat)
    requires Enabled(s, a) && (a.TakeLock? || a.FireNotify? || a.RemoveFired?) && a.w == w && Carries(s.workers[w], f)
    ensures w < |Apply(s, a).workers| && Carries(Apply(s, a).workers[w], f)
  {
    hide NotifyTask;
  }

  lemma PushCarries(s: System, a: Action, w: nat, f: nat)
    requires Enabled(s, a) && Internal(a) && OfTasks(a) && a.w == w && Carries(s.workers[w], f)
    ensures w < |Apply(s, a).workers| && Carries(Apply(s, a).workers[w], f)
  {
    hide NotifyTask, LoadTask, BeginTask, EndTask, SleepTask, FinishTask;
    assert a.PushNotified?;
  }

  lemma SweepIs(s: System, w: nat)
    requires Enabled(s, SweepNext(w))
    ensures Apply(s, SweepNext(w)) == SweepStep(s, w)
  {
  }

  lemma CarriedStep(s: System, a: Action, w: nat, f: nat, iid: nat)
    requires Inv(s) && Enabled(s, a) && Internal(a) && w < |s.workers| && Carries(s.workers[w], f)
    requires iid < |s.interests| && !s.interests[iid].fired && s.interests[iid].fd == f
    ensures w < |Apply(s, a).workers| && Carries(Apply(s, a).workers[w], f)
  {
    hide Inv, Enabled, Apply, Carries;
    if !By(a, w) {
      if OfTasks(a) { OtherTaskSteps(s, a, w); } else if OfInterests(a) { OtherHandlerSteps(s, a, w); } else { OtherLoopSteps(s, a, w); }
    } else if OfTasks(a) {
      PushCarries(s, a, w, f);
    } else if a.SweepNext? {
      TableNotEmpty(s, iid);
      SweepCarries(s, w, f);
      SweepIs(s, w);
    } else if OfInterests(a) {
      HandlerCarries(s, a, w, f);
    } else {
      LoopCarries(s, a, w, f);
    }
  }

  /** No internal step moves an interest to another fd. */
  lemma FdStays(s: System, a: Action, iid: nat)
    requires Enabled(s, a) && Internal(a) && iid < |s.interests|
    ensures iid < |Apply(s, a).interests| && Apply(s, a).interests[iid].fd == s.interests[iid].fd
  {
    hide NotifyTask;
    if OfInterests(a) { assert Apply(s, a) == ApplyToInterests(s, a); } else { InterestsOutOfReach(s, a); }
  }

  /** Run to its end, the pool has fired the interest, or the hang-up is still on its way. */
  lemma {:induction false} CarriedRun(s: System, run: seq<Action>, w: nat, f: nat, iid: nat)
    requires Inv(s) && Legal(s, run) && InternalRun(run) && w < |s.workers|
    requires Fired(s, iid) || (iid < |s.interests| && s.interests[iid].fd == f && Carries(s.workers[w], f))
    ensures Fired(Exec(s, run), iid) || (w < |Exec(s, run).workers| && Carries(Exec(s, run).workers[w], f))
    decreases |run|
  {
    hide Inv, Enabled, Apply, Carries, Internal;
    if run != [] {
      var s' := Apply(s, run[0]);
      StepKeepsInv(s, run[0]);
      FiredStep(s, run[0], iid);
      ExitStep(s, run[0]);
      if !Fired(s, iid) {
        CarriedStep(s, run[0], w, f, iid);
        FdStays(s, run[0], iid);
      }
      CarriedRun(s', run[1..], w, f, iid);
    }
  }

  lemma NothingCarried(s: System, w: nat, f: nat)
    requires AllBlocked(s) && w < |s.workers|
    ensures !Carries(s.workers[w], f)
  {
  }

  // ---------------------------------------------------------------------------------------------------------
  // The run that brings the wake

  lemma {:induction false} RunIsReachable(s: System, run: seq<Action>)
    requires Reachable(s) && Legal(s, run)
    ensures Reachable(Exec(s, run))
    decreases |run|
  {
    hide Reachable, Enabled, Apply;
    if run != [] {
      ReachableStep(s, run[0]);
      RunIsReachable(Apply(s, run[0]), run[1..]);
    }
  }

  /** An active pool, run to rest, has every worker blocked. */
  lemma RestOfActive(s: System) returns (run: seq<Action>)
    requires Reachable(s) && s.active && |s.workers| > 0
    ensures Legal(s, run) && InternalRun(run) && Reachable(Exec(s, run)) && AllBlocked(Exec(s, run))
    ensures Exec(s, run).active && |Exec(s, run).workers| == |s.workers|
  {
    ReachableInv(s);
    hide Reachable, Inv, AllBlocked, AtRest, Legal, Enabled, Apply;
    run := RunToRest(s);
    RunIsReachable(s, run);
    ExitRun(s, run);
    ActiveHasAllWorkers(Exec(s, run));
    RestIsQuiescence(Exec(s, run));
  }

  lemma NoneUnderwayBlocked(s: System, iid: nat)
    requires Reachable(s) && AllBlocked(s)
    ensures Underway(s, iid) == 0 && !AboutToNotify(s, iid)
  {
    ReachableInv(s);
    BlockedHoldNothing(s);
    hide Inv;
    UnderwayIsAboutToNotify(s, iid);
  }

  /** The kernel reports a hang-up of the fd of an unfired interest to a blocked worker. */
  lemma HangUp(s: System, iid: nat) returns (a: Action)
    requires Reachable(s) && AllBlocked(s) && |s.workers| > 0 && ArmedFor(s, iid)
    ensures Enabled(s, a) && Reachable(Apply(s, a)) && a.DeliverFd?
    ensures var s' := Apply(s, a);
            && iid < |s'.interests| && s'.interests[iid] == s.interests[iid] && s'.active == s.active && |s'.workers| == |s.workers|
            && Carries(s'.workers[0], s.interests[iid].fd)
  {
    var f := s.interests[iid].fd;
    a := DeliverFd(0, f, {HUP});
    BlockedWorker(s, 0);
    hide Reachable;
    assert HUP in {HUP};
    ReachableStep(s, a);
    assert Apply(s, a) == DeliverFdStep(s, 0, f, {HUP});
    var k := DeliverFdStep(s, 0, f, {HUP}).workers[0];
    assert k.pc.batch == [] + [OnFd(f, {HUP})];
  }

  lemma BlockedWorker(s: System, w: nat)
    requires Reachable(s) && AllBlocked(s) && w < |s.workers|
    ensures Free(s, w)
  {
    ReachableInv(s);
    WorkerFacts(s, w);
  }

  /** No future registers on anything. */
  predicate NoFuture(run: seq<Action>) { forall i :: 0 <= i < |run| ==> !run[i].RegisterInterest? }

  /** From rest: one hang-up, and to rest again. */
  lemma FiresFromRest(s: System, iid: nat) returns (run: seq<Action>)
    requires Reachable(s) && AllBlocked(s) && s.active && |s.workers| > 0 && WakeToCome(s, iid)
    ensures Legal(s, run) && Fired(Exec(s, run), iid) && AllBlocked(Exec(s, run)) && Reachable(Exec(s, run))
    ensures NoFuture(run)
  {
    BlockedIsArmed(s, iid);
    hide Reachable, AllBlocked, ArmedFor, WakeToCome, Enabled, Apply, Carries, Inv, Internal, InternalRun;
    var a := HangUp(s, iid);
    assert NoFuture([a]);
    hide NoFuture;
    var s' := Apply(s, a);
    var rest := RestOfActive(s');
    ReachableInv(s');
    var f := s'.interests[iid].fd;
    CarriedRun(s', rest, 0, f, iid);
    NothingCarried(Exec(s', rest), 0, f);
    run := [a] + rest;
    assert run[1..] == rest;
    InternalHasNoFuture(rest);
    NoFutureJoin([a], rest);
  }

  lemma InternalHasNoFuture(run: seq<Action>)
    requires InternalRun(run)
    ensures NoFuture(run)
  {
  }

  lemma NoFutureJoin(first: seq<Action>, second: seq<Action>)
    requires NoFuture(first) && NoFuture(second)
    ensures NoFuture(first + second)
  {
  }

  lemma CountedOver(s: System, run: seq<Action>, iid: nat)
    requires Reachable(s) && Legal(s, run) && Underway(Exec(s, run), iid) == 0
    ensures Reportings(s, run, iid) == Underway(s, iid) + One(Fired(Exec(s, run), iid)) - One(Fired(s, iid))
  {
    ReachableInv(s);
    hide Inv, Reachable;
    FiringsSoFar(s, run, iid);
    ReportingsSoFar(s, run, iid);
  }

  lemma SomeRunReports(s: System, iid: nat) returns (run: seq<Action>)
    requires Reachable(s) && s.active && |s.workers| > 0 && WakeToCome(s, iid)
    ensures Legal(s, run) && Reportings(s, run, iid) > 0 && NoFuture(run)
  {
    ToldOrToCome(s, iid);
    UnderwayIsAboutToNotify(s, iid);
    hide Reachable, AllBlocked, Enabled, Apply, WakeToCome, Underway, NoFuture, InternalRun, Internal;
    var first := RestOfActive(s);
    InternalHasNoFuture(first);
    var s1 := Exec(s, first);
    if Fired(s1, iid) {
      run := first;
    } else {
      UnfiredStays(s, first, iid);
      ToldOrToCome(s1, iid);
      NoneUnderwayBlocked(s1, iid);
      var second := FiresFromRest(s1, iid);
      Join(s, first, second);
      NoFutureJoin(first, second);
      run := first + second;
    }
    NoneUnderwayBlocked(Exec(s, run), iid);
    CountedOver(s, run, iid);
  }

  /** An interest once made stays. */
  lemma UnfiredStays(s: System, run: seq<Action>, iid: nat)
    requires Legal(s, run) && InternalRun(run) && iid < |s.interests|
    ensures iid < |Exec(s, run).interests|
    decreases |run|
  {
    hide Enabled, Apply, Internal;
    if run != [] {
      FdStays(s, run[0], iid);
      UnfiredStays(Apply(s, run[0]), run[1..], iid);
    }
  }

  /**
    Exactly which interests can still wake somebody.  In a pool that was not shut down, some continuation notifies for
    the interest if and only if it is listed and unfired or about to be notified, that is, if it has told nobody yet.
  */
  lemma ReportedIffToCome(s: System, iid: nat)
    requires Reachable(s) && s.active && |s.workers| > 0 && iid < |s.interests|
    ensures (exists run :: Legal(s, run) && Reportings(s, run, iid) > 0) <==> WakeToCome(s, iid)
    ensures WakeToCome(s, iid) <==> s.interests[iid].told == None
  {
    ToldOrToCome(s, iid);
    hide Reachable, WakeToCome, Legal, Reportings;
    if WakeToCome(s, iid) {
      var run := SomeRunReports(s, iid);
    } else {
      forall run | Legal(s, run) ensures Reportings(s, run, iid) == 0 { SpentInterestIsSilent(s, run, iid); }
    }
  }
}
