/**
  Which sleeper an interest can still wake.  The task in the slot of an interest that has told nobody is woken by some
  continuation; one that has been replaced there is not, and once its last reference is gone it stays as it is.
*/
module WakeSleepers {
  import opened Prelude
  import opened Interests
  import opened TaskProtocol
  import opened WakeSystem
  import opened WakeInvariant
  import opened WakeProofs
  import opened WakeInterestProofs
  import opened WakeTheorems
  import opened WakeLives
  import opened WakeReports
  import Ch = CustomEvents

  // ---------------------------------------------------------------------------------------------------------
  // Whom the wake goes to

  predicate Registers(a: Action, iid: nat) { a.RegisterInterest? && a.iid == iid }

  /** Nobody registers on the interest. */
  predicate NoRegister(run: seq<Action>, iid: nat) { forall i :: 0 <= i < |run| ==> !Registers(run[i], iid) }

  /** How often a run notifies task `t` for the interest. */
  function Tellings(s: System, run: seq<Action>, iid: nat, t: nat): nat
    requires Legal(s, run)
    decreases |run|
  {
    if run == [] then 0 else
      One(Reports(s, run[0], iid) && s.interests[iid].slot == t) + Tellings(Apply(s, run[0]), run[1..], iid, t)
  }

  /** Only a registration on the interest changes who is in its slot. */
  lemma SlotStays(s: System, a: Action, iid: nat)
    requires Enabled(s, a) && iid < |s.interests| && !Registers(a, iid)
    ensures iid < |Apply(s, a).interests| && Apply(s, a).interests[iid].slot == s.interests[iid].slot
  {
    hide Enabled;
    if a.SweepNext? { SweepKeepsSlots(s, a.w, iid); }
    else if Writes(a) { WriterKeepsSlot(s, a, iid); }
    else if OfInterests(a) { InterestsUntouched(s, a); }
    else { InterestsOutOfReach(s, a); }
  }

  lemma SweepKeepsSlots(s: System, w: nat, iid: nat)
    requires Enabled(s, SweepNext(w)) && iid < |s.interests|
    ensures var s' := Apply(s, SweepNext(w)); iid < |s'.interests| && s'.interests[iid].slot == s.interests[iid].slot
  {
  }

  lemma WriterKeepsSlot(s: System, a: Action, iid: nat)
    requires Enabled(s, a) && Writes(a) && iid < |s.interests| && !Registers(a, iid)
    ensures iid < |Apply(s, a).interests| && Apply(s, a).interests[iid].slot == s.interests[iid].slot
  {
    hide NotifyTask;
  }

  /** As long as nobody registers, every notify for the interest goes to the task in its slot. */
  lemma {:induction false} TellingsToSlot(s: System, run: seq<Action>, iid: nat, t: nat)
    requires Legal(s, run) && NoRegister(run, iid) && iid < |s.interests|
    ensures Tellings(s, run, iid, t) == if s.interests[iid].slot == t then Reportings(s, run, iid) else 0
    decreases |run|
  {
    hide Enabled, Apply, Reports, Registers;
    if run != [] {
      SlotStays(s, run[0], iid);
      TellingsToSlot(Apply(s, run[0]), run[1..], iid, t);
    }
  }

  /**
    Exactly which tasks an interest can still wake.  In a pool that was not shut down, some continuation in which nobody
    registers on the interest notifies the task for it if and only if the interest has told nobody and has the task
    in its slot.
  */
  lemma ToldIffInSlot(s: System, t: nat, iid: nat)
    requires Reachable(s) && s.active && |s.workers| > 0 && iid < |s.interests|
    ensures (exists run :: Legal(s, run) && NoRegister(run, iid) && Tellings(s, run, iid, t) > 0) <==> WakeFor(s, t, iid)
    ensures WakeFor(s, t, iid) <==> s.interests[iid].told == None && s.interests[iid].slot == t
  {
    ReportedIffToCome(s, iid);
    hide Reachable, WakeToCome, Legal, Reportings, Tellings;
    if WakeFor(s, t, iid) {
      var run := SomeRunReports(s, iid);
      TellingsToSlot(s, run, iid, t);
    }
    forall run | Legal(s, run) && NoRegister(run, iid) && Tellings(s, run, iid, t) > 0 ensures WakeFor(s, t, iid) {
      TellingsToSlot(s, run, iid, t);
    }
  }

  // ---------------------------------------------------------------------------------------------------------
  // A sleeper that has been replaced

  /** The task is asleep before each step of the run. */
  predicate AsleepThrough(s: System, run: seq<Action>, t: nat)
    requires Legal(s, run)
    decreases |run|
  {
    run == [] || (t < |s.tasks| && s.tasks[t].level == 0 && AsleepThrough(Apply(s, run[0]), run[1..], t))
  }

  /** Only the task itself, polled, puts itself into a slot: asleep it does not come back. */
  lemma NotPutBack(s: System, a: Action, t: nat, iid: nat)
    requires Reachable(s) && Enabled(s, a) && t < |s.tasks| && s.tasks[t].level == 0
    requires iid < |s.interests| && s.interests[iid].slot != t
    ensures iid < |Apply(s, a).interests| && Apply(s, a).interests[iid].slot != t
  {
    if Registers(a, iid) {
      ReachableInv(s);
      RunnerIsAwake(s, a.w);
      hide Inv, Reachable;
      assert Apply(s, a) == RegisterInterestStep(s, a.w, iid);
    } else {
      hide Reachable, Enabled, Apply;
      SlotStays(s, a, iid);
    }
  }

  lemma RunnerIsAwake(s: System, w: nat)
    requires Inv(s) && w < |s.workers| && s.workers[w].pc.InPoll?
    ensures s.workers[w].pc.task < |s.tasks| && s.tasks[s.workers[w].pc.task].level > 0
  {
    hide TasksOK, RefsOK, SlotsOK, BorrowsOK, RunsOK, WorkersOK, ChannelOK, LinksOK, LocksOK, TablesOK, EntriesOK, ListedOK,
         InterestsOK, TellsOK, WaitsOK;
    TokenIsDue(s, w, s.workers[w].pc.task);
  }

  /** A sleeper that has lost its place is not told, whoever registers, until something else has woken it. */
  lemma {:induction false} ReplacedIsNotTold(s: System, run: seq<Action>, t: nat, iid: nat)
    requires Reachable(s) && Legal(s, run) && AsleepThrough(s, run, t) && iid < |s.interests| && s.interests[iid].slot != t
    ensures Tellings(s, run, iid, t) == 0
    ensures iid < |Exec(s, run).interests| && Exec(s, run).interests[iid].slot != t
    decreases |run|
  {
    hide Reachable, Enabled, Apply, Reports;
    if run != [] {
      NotPutBack(s, run[0], t, iid);
      ReachableStep(s, run[0]);
      ReplacedIsNotTold(Apply(s, run[0]), run[1..], t, iid);
    }
  }

  /**
    The sleeper's wake, exactly.  For a task asleep at level 0 on an interest its last poll saw unfired: some
    continuation in which nobody registers on the interest wakes it by that interest if and only if the interest has
    told nobody and the task is in its slot; if another task is in the slot, no continuation does while it sleeps.
  */
  lemma SleeperIsWokenIff(s: System, t: nat, iid: nat)
    requires Reachable(s) && s.active && |s.workers| > 0
    requires t < |s.tasks| && !s.tasks[t].done && s.tasks[t].level == 0 && iid in s.tasks[t].waits
    ensures iid < |s.interests| && s.interests[iid].told != Some(t)
    ensures (exists run :: Legal(s, run) && NoRegister(run, iid) && Tellings(s, run, iid, t) > 0)
            <==> s.interests[iid].told == None && s.interests[iid].slot == t
    ensures s.interests[iid].slot != t ==>
              forall run :: Legal(s, run) && AsleepThrough(s, run, t) ==> Tellings(s, run, iid, t) == 0
    ensures s.interests[iid].told.Some? ==> forall run :: Legal(s, run) ==> Reportings(s, run, iid) == 0
  {
    hide Reachable, WakeFor, WakeToCome, Legal, Reportings, Tellings, AsleepThrough;
    EndToEndWake(s, t, iid);
    ToldIffInSlot(s, t, iid);
    ReportedIffToCome(s, iid);
    if s.interests[iid].slot != t {
      forall run | Legal(s, run) && AsleepThrough(s, run, t) ensures Tellings(s, run, iid, t) == 0 { ReplacedIsNotTold(s, run, t, iid); }
    }
  }

  // ---------------------------------------------------------------------------------------------------------
  // A task nobody refers to

  /** No queue, deque, do_poll, notify or handle has the task, and no interest that is still there. */
  ghost predicate Unowned(s: System, t: nat)
  {
    && t < |s.tasks| && t !in s.channel.queue && s.handles[t] == 0
    && (forall v :: 0 <= v < |s.workers| ==> HasNot(s.workers[v], t))
    && (forall iid :: 0 <= iid < |s.interests| && s.interests[iid].slot == t ==> s.interests[iid].gone)
  }

  lemma ReleasedIsUnowned(s: System, t: nat)
    requires Reachable(s) && t < |s.tasks| && s.tasks[t].strong == 0
    ensures Unowned(s, t)
  {
    ReferencesConserved(s, t);
    hide Reachable;
    forall v | 0 <= v < |s.workers| ensures HasNot(s.workers[v], t) { HasNoToken(s.workers[v], t); }
  }

  ghost predicate Same(s: System, s': System, t: nat) { t < |s.tasks| && t < |s'.tasks| && s'.tasks[t] == s.tasks[t] }

  lemma PollLeavesUnowned(s: System, a: Action, t: nat)
    requires Unowned(s, t) && Enabled(s, a) && PollStep(a)
    ensures Same(s, Apply(s, a), t)
  {
    assert HasNot(s.workers[a.w], t);
    assert Apply(s, a) == ApplyToTasks(s, a);
  }

  lemma NotifyLeavesUnowned(s: System, a: Action, t: nat)
    requires Unowned(s, t) && Enabled(s, a) && OfTasks(a) && !PollStep(a)
    ensures Same(s, Apply(s, a), t)
  {
    assert a.PushNotified? || a.CloneOwn? ==> HasNot(s.workers[a.w], t);
    assert Apply(s, a) == ApplyToTasks(s, a);
  }

  lemma FutureLeavesUnowned(s: System, a: Action, t: nat)
    requires Unowned(s, t) && Enabled(s, a) && (a.AddInterest? || a.CheckInterest? || a.RegisterInterest?)
    ensures Same(s, Apply(s, a), t)
  {
    assert HasNot(s.workers[a.w], t);
  }

  lemma HandlerLeavesUnowned(s: System, a: Action, t: nat)
    requires Unowned(s, t) && Enabled(s, a) && OfInterests(a) && !a.AddInterest? && !a.CheckInterest? && !a.RegisterInterest?
    requires a.FireNotify? ==> !s.interests[s.workers[a.w].pc.iid].gone
    ensures Same(s, Apply(s, a), t)
  {
    hide NotifyTask, Union, RearmMask;
  }

  lemma LoopLeavesUnowned(s: System, a: Action, t: nat)
    requires Unowned(s, t) && Enabled(s, a) && !OfTasks(a) && !OfInterests(a)
    ensures Same(s, Apply(s, a), t)
  {
    hide Ch.Apply;
    assert Apply(s, a) == ApplyToLoop(s, a);
  }

  lemma UnownedStep(s: System, a: Action, t: nat)
    requires Reachable(s) && Enabled(s, a) && t < |s.tasks| && s.tasks[t].strong == 0
    ensures Same(s, Apply(s, a), t)
  {
    ReleasedIsUnowned(s, t);
    ReachableInv(s);
    if a.FireNotify? { NotifiedIsThere(s, a.w); }
    hide Inv, Reachable, Unowned, Same, Enabled, Apply;
    if PollStep(a) { PollLeavesUnowned(s, a, t); }
    else if OfTasks(a) { NotifyLeavesUnowned(s, a, t); }
    else if a.AddInterest? || a.CheckInterest? || a.RegisterInterest? { FutureLeavesUnowned(s, a, t); }
    else if OfInterests(a) { HandlerLeavesUnowned(s, a, t); }
    else { LoopLeavesUnowned(s, a, t); }
  }

  lemma NotifiedIsThere(s: System, w: nat)
    requires Inv(s) && Enabled(s, FireNotify(w))
    ensures !s.interests[s.workers[w].pc.iid].gone
  {
    hide TasksOK, TokensOK, RefsOK, SlotsOK, BorrowsOK, RunsOK, WorkersOK, ChannelOK, LinksOK, LocksOK, TablesOK, EntriesOK, ListedOK,
         InterestsOK, TellsOK, WaitsOK;
    FiringIsThere(s, w);
  }

  /** A task whose last reference is gone stays as it is: it is never polled or notified again. */
  lemma {:induction false} ReleasedForGood(s: System, run: seq<Action>, t: nat)
    requires Reachable(s) && Legal(s, run) && t < |s.tasks| && s.tasks[t].strong == 0
    ensures t < |Exec(s, run).tasks| && Exec(s, run).tasks[t] == s.tasks[t]
    decreases |run|
  {
    hide Reachable, Enabled, Apply;
    if run != [] {
      UnownedStep(s, run[0], t);
      ReachableStep(s, run[0]);
      ReleasedForGood(Apply(s, run[0]), run[1..], t);
    }
  }
}
