/**
  A run of the composed system from a fresh pool: two workers, two tasks, one fd.  The first task makes an interest
  and goes to sleep; the second looks at that interest, and before it registers, the interest fires and the first
  task is notified.  Then the second registers and goes to sleep as well, and its wake is lost.
*/
module WakeScenario {
  import opened Prelude
  import opened Interests
  import opened TaskProtocol
  import opened WakeSystem
  import opened WakeInvariant
  import opened WakeTheorems
  import opened WakeLives
  import opened WakeSleepers
  import opened WakeProofs
  import Ch = CustomEvents

  // ---------------------------------------------------------------------------------------------------------
  // One step from a reachable state

  lemma LoopSteps(s: System, w: nat)
    requires Reachable(s)
    ensures Enabled(s, CheckActive(w)) ==> Reachable(CheckActiveStep(s, w))
    ensures Enabled(s, LocalDone(w)) ==> Reachable(LocalDoneStep(s, w))
  {
    hide Reachable;
    if Enabled(s, CheckActive(w)) { ReachableStep(s, CheckActive(w)); }
    if Enabled(s, LocalDone(w)) { ReachableStep(s, LocalDone(w)); }
  }

  lemma StealSteps(s: System, w: nat)
    requires Reachable(s)
    ensures Enabled(s, Steal(w)) ==> Reachable(StealStep(s, w))
    ensures Enabled(s, StealEmpty(w)) ==> Reachable(StealEmptyStep(s, w))
  {
    hide Reachable;
    if Enabled(s, Steal(w)) { ReachableStep(s, Steal(w)); }
    if Enabled(s, StealEmpty(w)) { ReachableStep(s, StealEmpty(w)); }
  }

  lemma WaitSteps(s: System, w: nat)
    requires Reachable(s)
    ensures Enabled(s, ReturnFromWait(w)) ==> Reachable(ReturnStep(s, w))
    ensures Enabled(s, Dispatch(w)) ==> Reachable(DispatchStep(s, w))
  {
    hide Reachable;
    if Enabled(s, ReturnFromWait(w)) { ReachableStep(s, ReturnFromWait(w)); }
    if Enabled(s, Dispatch(w)) { ReachableStep(s, Dispatch(w)); }
  }

  lemma ChannelSteps(s: System, w: nat)
    requires Reachable(s)
    ensures Enabled(s, DeliverChannel(w)) ==> Reachable(DeliverChannelStep(s, w))
    ensures Enabled(s, ReadCount(w)) ==> Reachable(ReadCountStep(s, w))
  {
    hide Reachable;
    if Enabled(s, DeliverChannel(w)) { ReachableStep(s, DeliverChannel(w)); }
    if Enabled(s, ReadCount(w)) { ReachableStep(s, ReadCount(w)); }
  }

  lemma DrainSteps(s: System, w: nat)
    requires Reachable(s)
    ensures Enabled(s, PopDatum(w)) ==> Reachable(PopStep(s, w))
  {
    hide Reachable;
    if Enabled(s, PopDatum(w)) { ReachableStep(s, PopDatum(w)); }
  }

  lemma RearmSteps(s: System, w: nat)
    requires Reachable(s)
    ensures Enabled(s, RearmChannel(w)) ==> Reachable(RearmChannelStep(s, w))
  {
    hide Reachable;
    if Enabled(s, RearmChannel(w)) { ReachableStep(s, RearmChannel(w)); }
  }

  lemma PollSteps(s: System, w: nat)
    requires Reachable(s)
    ensures Enabled(s, LoadLevel(w)) ==> Reachable(LoadStep(s, w))
    ensures Enabled(s, BeginPoll(w)) ==> Reachable(BeginStep(s, w))
  {
    hide Reachable;
    if Enabled(s, LoadLevel(w)) { ReachableStep(s, LoadLevel(w)); }
    if Enabled(s, BeginPoll(w)) { ReachableStep(s, BeginPoll(w)); }
  }

  lemma EndSteps(s: System, w: nat)
    requires Reachable(s)
    ensures Enabled(s, PollPending(w)) ==> Reachable(PendingStep(s, w))
    ensures Enabled(s, Swap(w)) ==> Reachable(SwapStep(s, w))
  {
    hide Reachable;
    if Enabled(s, PollPending(w)) { ReachableStep(s, PollPending(w)); }
    if Enabled(s, Swap(w)) { ReachableStep(s, Swap(w)); }
  }

  lemma MakeSteps(s: System, w: nat, f: Fd)
    requires Reachable(s)
    ensures Enabled(s, AddInterest(w, f, {READ})) ==> Reachable(AddInterestStep(s, w, f, {READ}))
  {
    hide Reachable;
    if Enabled(s, AddInterest(w, f, {READ})) { ReachableStep(s, AddInterest(w, f, {READ})); }
  }

  lemma LookSteps(s: System, w: nat, iid: InterestId)
    requires Reachable(s)
    ensures Enabled(s, CheckInterest(w, iid)) ==> Reachable(CheckInterestStep(s, w, iid))
  {
    hide Reachable;
    if Enabled(s, CheckInterest(w, iid)) { ReachableStep(s, CheckInterest(w, iid)); }
  }

  lemma ReportSteps(s: System, w: nat, f: Fd)
    requires Reachable(s)
    ensures Enabled(s, DeliverFd(w, f, {READ})) ==> Reachable(DeliverFdStep(s, w, f, {READ}))
  {
    hide Reachable;
    if Enabled(s, DeliverFd(w, f, {READ})) { ReachableStep(s, DeliverFd(w, f, {READ})); }
  }

  lemma LockSteps(s: System, w: nat)
    requires Reachable(s)
    ensures Enabled(s, TakeLock(w)) ==> Reachable(TakeLockStep(s, w))
  {
    hide Reachable;
    if Enabled(s, TakeLock(w)) { ReachableStep(s, TakeLock(w)); }
  }

  lemma SweepSteps(s: System, w: nat)
    requires Reachable(s)
    ensures Enabled(s, SweepNext(w)) ==> Reachable(SweepStep(s, w))
  {
    hide Reachable;
    if Enabled(s, SweepNext(w)) { ReachableStep(s, SweepNext(w)); }
  }

  lemma FireSteps(s: System, w: nat)
    requires Reachable(s)
    ensures Enabled(s, FireNotify(w)) ==> Reachable(FireNotifyStep(s, w))
  {
    hide Reachable;
    if Enabled(s, FireNotify(w)) { ReachableStep(s, FireNotify(w)); }
  }

  lemma SpawnSteps(s: System)
    requires Reachable(s)
    ensures Enabled(s, SpawnPush) ==> Reachable(SpawnPushStep(s))
    ensures Enabled(s, SpawnWrite) ==> Reachable(SpawnWriteStep(s))
  {
    hide Reachable;
    if Enabled(s, SpawnPush) { ReachableStep(s, SpawnPush); }
    if Enabled(s, SpawnWrite) { ReachableStep(s, SpawnWrite); }
  }

  lemma PushSteps(s: System, w: nat)
    requires Reachable(s)
    ensures Enabled(s, PushNotified(w)) ==> Reachable(PushNotifiedStep(s, w))
  {
    hide Reachable;
    if Enabled(s, PushNotified(w)) { ReachableStep(s, PushNotified(w)); }
  }

  // ---------------------------------------------------------------------------------------------------------
  // The phases of the run

  /** Two tasks are posted and an fd is open. */
  lemma Posted() returns (s: System)
    ensures Reachable(s) && s.active && s.tasks == [SPAWNED, SPAWNED] && s.interests == [] && s.handles == multiset{}
    ensures s.workers == [Worker(AtTop, [], None), Worker(AtTop, [], None)] && s.tables == [Table(None, [], Some({}))]
    ensures s.channel.armed && s.channel.count == 1 && s.channel.handlers == map[] && s.channel.queue == [0, 1]
  {
    var s1 := Opened();
    hide Reachable, Apply;
    SpawnSteps(s1);
    var s2 := SpawnPushStep(s1);
    SpawnSteps(s2);
    var s3 := SpawnPushStep(s2);
    SpawnSteps(s3);
    s := SpawnWriteStep(s3);
    assert s3.tasks == [SPAWNED, SPAWNED] && s3.channel.queue == [0, 1];
  }

  lemma Opened() returns (s: System)
    ensures Reachable(s) && s == Init(2).(tables := [Table(None, [], Some({}))])
    ensures s.workers == [Worker(AtTop, [], None), Worker(AtTop, [], None)]
  {
    FreshIsReachable();
    hide Reachable, Enabled, Apply;
    AlwaysOpens(Init(2));
    ReachableStep(Init(2), OpenFd);
    s := Apply(Init(2), OpenFd);
  }

  lemma FreshIsReachable()
    ensures Reachable(Init(2))
  {
    assert Legal(Init(2), []) && Exec(Init(2), []) == Init(2);
  }

  lemma AlwaysOpens(s: System)
    ensures Enabled(s, OpenFd) && Apply(s, OpenFd) == s.(tables := s.tables + [Table(None, [], Some({}))])
  {
  }

  lemma GoesToSteal(s: System, w: nat) returns (s': System)
    requires Reachable(s) && s.active && w < |s.workers| && s.workers[w].pc == AtTop && s.workers[w].pending == None
    ensures Reachable(s') && s' == s.(workers := s.workers[w := s.workers[w].(pc := Stealing)])
  {
    hide Reachable, Apply;
    LoopSteps(s, w);
    var s1 := CheckActiveStep(s, w);
    LoopSteps(s1, w);
    s' := LocalDoneStep(s1, w);
    assert s'.workers == s.workers[w := s.workers[w].(pc := Stealing)];
  }

  /** A worker without work blocks. */
  lemma GoesToWait(s: System, w: nat) returns (s': System)
    requires Reachable(s) && s.active && w < |s.workers| && s.workers[w] == Worker(AtTop, [], None)
    ensures Reachable(s') && s' == s.(workers := s.workers[w := Worker(Waiting(true, []), [], None)])
  {
    hide Reachable, Apply;
    var s1 := GoesToSteal(s, w);
    StealSteps(s1, w);
    s' := StealEmptyStep(s1, w);
    assert s'.workers == s.workers[w := Worker(Waiting(true, []), [], None)];
  }

  /** Everything but the channel and worker `w` is as it was. */
  ghost predicate SameBut(s: System, s': System, w: nat)
    requires w < |s.workers|
  {
    && |s'.workers| == |s.workers| && s' == s.(channel := s'.channel, workers := s'.workers)
    && s'.workers == s.workers[w := s'.workers[w]]
  }

  /** The wait returns with one event, which is dispatched. */
  lemma Dispatches(s: System, w: nat, d: Delivery) returns (s': System)
    requires Reachable(s) && Free(s, w) && s.workers[w].pc == Waiting(true, [d])
    ensures Reachable(s')
    ensures s' == s.(workers := s.workers[w := s.workers[w].(pc := if d.Custom? then InChannel([]) else AtLock(d.fd, d.word, []))])
  {
    hide Reachable, Apply;
    WaitSteps(s, w);
    var s1 := ReturnStep(s, w);
    WaitSteps(s1, w);
    s' := DispatchStep(s1, w);
    assert [d][1..] == [];
    assert s'.workers == s.workers[w := s.workers[w].(pc := if d.Custom? then InChannel([]) else AtLock(d.fd, d.word, []))];
  }

  /** A blocked worker takes the channel's delivery. */
  lemma TakesDelivery(s: System, w: nat) returns (s': System)
    requires Reachable(s) && w < |s.workers| && s.workers[w] == Worker(Waiting(true, []), [], None)
    requires s.channel.armed && s.channel.count > 0 && s.channel.handlers == map[]
    ensures Reachable(s') && SameBut(s, s', w) && s'.workers[w] == Worker(InChannel([]), [], None)
    ensures s'.channel.queue == s.channel.queue && Ch.At(s'.channel, w, Ch.Draining)
  {
    hide Reachable, Apply;
    ChannelSteps(s, w);
    var s1 := DeliverChannelStep(s, w);
    assert s1.workers[w].pc == Waiting(true, [Custom]) by { assert [] + [Custom] == [Custom]; }
    var s2 := Dispatches(s1, w, Custom);
    ChannelSteps(s2, w);
    s' := ReadCountStep(s2, w);
    assert s'.workers == s.workers[w := s'.workers[w]];
  }

  lemma Pops(s: System, w: nat) returns (s': System)
    requires Reachable(s) && w < |s.workers| && s.workers[w].pc == InChannel([]) && s.workers[w].pending == None
    requires Ch.At(s.channel, w, Ch.Draining) && s.channel.queue != []
    ensures Reachable(s') && SameBut(s, s', w) && Ch.At(s'.channel, w, Ch.Draining) && s'.channel.queue == s.channel.queue[1..]
    ensures s'.workers[w] == Worker(InChannel([]), s.workers[w].deque + [s.channel.queue[0]], None)
  {
    hide Reachable, Apply;
    DrainSteps(s, w);
    s' := PopStep(s, w);
  }

  /** The pop that finds nothing, and the re-arming. */
  lemma Rearms(s: System, w: nat) returns (s': System)
    requires Reachable(s) && Free(s, w) && s.workers[w].pc == InChannel([])
    requires Ch.At(s.channel, w, Ch.Draining) && s.channel.queue == []
    ensures Reachable(s') && SameBut(s, s', w) && s'.workers[w] == s.workers[w].(pc := Dispatching([]))
  {
    hide Reachable, Apply;
    DrainSteps(s, w);
    var s1 := PopStep(s, w);
    RearmSteps(s1, w);
    s' := RearmChannelStep(s1, w);
  }

  lemma Leaves(s: System, w: nat) returns (s': System)
    requires Reachable(s) && Free(s, w) && s.workers[w].pc == InChannel([])
    requires Ch.At(s.channel, w, Ch.Draining) && s.channel.queue == []
    ensures Reachable(s') && SameBut(s, s', w) && s'.workers[w] == s.workers[w].(pc := AtTop)
  {
    hide Reachable, Apply;
    var s1 := Rearms(s, w);
    WaitSteps(s1, w);
    s' := DispatchStep(s1, w);
    assert s'.workers == s.workers[w := s'.workers[w]];
  }

  /** A blocked worker handles the channel: both tasks are on its deque. */
  lemma Serves(s: System, w: nat) returns (s': System)
    requires Reachable(s) && w < |s.workers| && s.workers[w] == Worker(Waiting(true, []), [], None)
    requires s.channel.armed && s.channel.count > 0 && s.channel.handlers == map[] && s.channel.queue == [0, 1]
    ensures Reachable(s') && SameBut(s, s', w) && s'.workers[w] == Worker(AtTop, [0, 1], None)
  {
    hide Reachable;
    var s1 := TakesDelivery(s, w);
    var s2 := Pops(s1, w);
    assert s1.channel.queue[1..] == [1] && [] + [0] == [0];
    var s3 := Pops(s2, w);
    assert [1][1..] == [] && [0] + [1] == [0, 1];
    s' := Leaves(s3, w);
    assert s'.workers == s.workers[w := s'.workers[w]];
  }

  /** A worker that steals begins to poll the first task of its deque. */
  lemma Polls(s: System, w: nat) returns (s': System)
    requires Reachable(s) && w < |s.workers| && s.workers[w].pc == Stealing && s.workers[w].pending == None
    requires s.workers[w].deque != [] && s.workers[w].deque[0] < |s.tasks| && s.tasks[s.workers[w].deque[0]] == SPAWNED
    ensures var t := s.workers[w].deque[0];
            && Reachable(s') && |s'.tasks| == |s.tasks| && s' == s.(tasks := s'.tasks, workers := s'.workers)
            && s'.workers == s.workers[w := Worker(InPoll(t, 1), s.workers[w].deque[1..], None)]
            && s'.tasks == s.tasks[t := s'.tasks[t]] && s'.tasks[t].level == 1 && !s'.tasks[t].done && s'.tasks[t].strong == 1
  {
    hide Reachable, Apply;
    var t := s.workers[w].deque[0];
    StealSteps(s, w);
    var s1 := StealStep(s, w);
    PollSteps(s1, w);
    var s2 := LoadStep(s1, w);
    PollSteps(s2, w);
    s' := BeginStep(s2, w);
    assert s'.workers == s.workers[w := Worker(InPoll(t, 1), s.workers[w].deque[1..], None)];
    assert s'.tasks == s.tasks[t := s'.tasks[t]];
  }

  /** The poll returns NotReady and nobody has notified. */
  lemma Sleeps(s: System, w: nat, t: nat) returns (s': System)
    requires Reachable(s) && Free(s, w) && t < |s.tasks| && s.workers[w].pc == InPoll(t, 1) && s.tasks[t].level == 1
    ensures Reachable(s') && |s'.tasks| == |s.tasks| && s' == s.(tasks := s'.tasks, workers := s'.workers)
    ensures s'.workers == s.workers[w := s.workers[w].(pc := Stealing)]
    ensures s'.tasks == s.tasks[t := s'.tasks[t]] && s'.tasks[t].level == 0 && s'.tasks[t].done == s.tasks[t].done
    ensures s'.tasks[t].strong == s.tasks[t].strong - 1 && s'.tasks[t].waits == s.tasks[t].waits
  {
    hide Reachable, Apply;
    EndSteps(s, w);
    var s1 := PendingStep(s, w);
    EndSteps(s1, w);
    s' := SwapStep(s1, w);
    assert s'.workers == s.workers[w := s.workers[w].(pc := Stealing)];
    assert s'.tasks == s.tasks[t := s'.tasks[t]];
  }

  /** Asleep on the interest, whose slot has the one reference to the task. */
  predicate Sleeping(k: Task) { k.level == 0 && !k.done && k.strong == 1 && 0 in k.waits }

  /** The first task makes an interest and goes to sleep. */
  lemma MakesAndSleeps(s: System, w: nat) returns (s': System)
    requires Reachable(s) && Free(s, w) && |s.tasks| == 2 && s.workers[w].pc == InPoll(0, 1) && s.tasks[0].level == 1
    requires s.interests == [] && s.tables == [Table(None, [], Some({}))] && s.handles == multiset{}
    requires !s.tasks[0].done && s.tasks[0].strong == 1
    ensures Reachable(s') && s'.active == s.active && s'.workers == s.workers[w := s.workers[w].(pc := Stealing)]
    ensures |s'.tasks| == 2 && s'.tasks[1] == s.tasks[1] && s'.handles[0] == 1 && Sleeping(s'.tasks[0])
    ensures s'.interests == [Interest(0, {READ}, false, 0, 0, None, false)]
    ensures s'.tables == [Table(None, [Entry({READ}, 0)], Some({READ}))]
  {
    hide Reachable, Apply;
    assert READ in {READ} && Union(s.tables[0].list) == {} && {} + {READ} == {READ};
    MakeSteps(s, w, 0);
    var s1 := AddInterestStep(s, w, 0, {READ});
    assert s1.tables == [Table(None, [] + [Entry({READ}, 0)], Some({} + {READ}))];
    assert [] + [Entry({READ}, 0)] == [Entry({READ}, 0)];
    s' := Sleeps(s1, w, 0);
  }

  /** A worker that sweeps the table fires the interest and notifies the first task. */
  lemma Fires(s: System, v: nat) returns (s': System)
    requires Reachable(s) && v < |s.workers| && s.workers[v] == Worker(Sweeping(0, {READ}, 0, None, []), [], None)
    requires |s.tasks| == 2 && s.interests == [Interest(0, {READ}, false, 0, 0, None, false)]
    requires s.tables == [Table(Some(v), [Entry({READ}, 0)], None)]
    ensures Reachable(s') && s'.active == s.active && |s'.tasks| == 2 && s'.tasks[1] == s.tasks[1] && s'.handles == s.handles
    ensures s'.interests == [Interest(0, {READ}, true, 0, 0, Some(0), false)]
    ensures |s'.workers| == |s.workers|
    ensures s'.workers == s.workers[v := Worker(AtRemove(0, {READ}, 0, None, 0, []), [], s'.workers[v].pending)]
    ensures s'.workers[v].pending == None || s'.workers[v].pending == Some(0)
  {
    hide Reachable, Apply;
    SweepSteps(s, v);
    var s1 := SweepStep(s, v);
    FireSteps(s1, v);
    s' := FireNotifyStep(s1, v);
    assert s'.workers == s.workers[v := Worker(AtRemove(0, {READ}, 0, None, 0, []), [], s'.workers[v].pending)];
  }

  /** A blocked worker takes the event of the fd; the first task is notified. */
  lemma Reports(s: System, v: nat) returns (s': System)
    requires Reachable(s) && v < |s.workers| && s.workers[v] == Worker(Waiting(true, []), [], None)
    requires |s.tasks| == 2 && s.interests == [Interest(0, {READ}, false, 0, 0, None, false)]
    requires s.tables == [Table(None, [Entry({READ}, 0)], Some({READ}))]
    ensures Reachable(s') && s'.active == s.active && |s'.tasks| == 2 && s'.tasks[1] == s.tasks[1] && s'.handles == s.handles
    ensures s'.interests == [Interest(0, {READ}, true, 0, 0, Some(0), false)]
    ensures |s'.workers| == |s.workers| && s'.workers == s.workers[v := s'.workers[v]]
    ensures s'.workers[v].pc.AtRemove? && s'.workers[v].pending == None
  {
    hide Reachable, Apply;
    var s1 := Locks(s, v);
    var s2 := Fires(s1, v);
    if s2.workers[v].pending == None {
      s' := s2;
    } else {
      PushSteps(s2, v);
      s' := PushNotifiedStep(s2, v);
    }
    assert s'.workers == s.workers[v := s'.workers[v]];
  }

  lemma Locks(s: System, v: nat) returns (s': System)
    requires Reachable(s) && v < |s.workers| && s.workers[v] == Worker(Waiting(true, []), [], None)
    requires s.tables == [Table(None, [Entry({READ}, 0)], Some({READ}))]
    ensures Reachable(s') && s' == s.(workers := s'.workers, tables := [Table(Some(v), [Entry({READ}, 0)], None)])
    ensures s'.workers == s.workers[v := Worker(Sweeping(0, {READ}, 0, None, []), [], None)]
  {
    hide Reachable, Apply;
    assert READ in {READ};
    ReportSteps(s, v, 0);
    var s1 := DeliverFdStep(s, v, 0, {READ});
    assert s1.workers[v].pc == Waiting(true, [OnFd(0, {READ})]) by { assert [] + [OnFd(0, {READ})] == [OnFd(0, {READ})]; }
    var s2 := Dispatches(s1, v, OnFd(0, {READ}));
    LockSteps(s2, v);
    s' := TakeLockStep(s2, v);
    assert s'.workers == s.workers[v := Worker(Sweeping(0, {READ}, 0, None, []), [], None)];
  }

  // ---------------------------------------------------------------------------------------------------------
  // The run

  /** The second task is in its poll; it has seen the interest unfired, and the interest has told the first task. */
  lemma OvertakenIsReached() returns (s: System)
    ensures Reachable(s) && Overtaken(s, 0, 1, 1, 0) && s.workers[0].pc == InPoll(1, 1) && Enabled(s, RegisterInterest(0, 0))
  {
    hide Reachable, Apply, SameBut;
    var s1 := BothTasksRun();
    var s2 := GoesToWait(s1, 1);
    s := Reports(s2, 1);
    hide Reachable, Apply;
    forall v | 0 <= v < |s.workers| ensures PendingCount(s.workers[v], 0) == 0 { }
    TotalZero(s.workers, PendingCount, 0);
  }

  /** The first task sleeps on its interest; the second is in its poll and has looked at it. */
  lemma BothTasksRun() returns (s: System)
    ensures Reachable(s) && s.active && |s.tasks| == 2 && s.tasks[1].level == 1 && 0 in s.tasks[1].waits && s.handles[0] == 1
    ensures Sleeping(s.tasks[0])
    ensures s.workers == [Worker(InPoll(1, 1), [], None), Worker(AtTop, [], None)]
    ensures s.interests == [Interest(0, {READ}, false, 0, 0, None, false)]
    ensures s.tables == [Table(None, [Entry({READ}, 0)], Some({READ}))]
  {
    hide Reachable, Apply;
    var s1 := FirstTaskSleeps();
    var s2 := Polls(s1, 0);
    assert [1][1..] == [];
    LookSteps(s2, 0, 0);
    s := CheckInterestStep(s2, 0, 0);
    assert s.workers == [Worker(InPoll(1, 1), [], None), Worker(AtTop, [], None)];
  }

  lemma FirstTaskSleeps() returns (s: System)
    ensures Reachable(s) && s.active && |s.tasks| == 2 && s.tasks[1] == SPAWNED && s.handles[0] == 1 && Sleeping(s.tasks[0])
    ensures s.workers == [Worker(Stealing, [1], None), Worker(AtTop, [], None)]
    ensures s.interests == [Interest(0, {READ}, false, 0, 0, None, false)]
    ensures s.tables == [Table(None, [Entry({READ}, 0)], Some({READ}))]
  {
    hide Reachable, Apply;
    var s1 := Posted();
    var s2 := GoesToWait(s1, 0);
    var s3 := Serves(s2, 0);
    var s4 := GoesToSteal(s3, 0);
    var s5 := Polls(s4, 0);
    assert [0, 1][1..] == [1];
    s := MakesAndSleeps(s5, 0);
    assert s.workers == [Worker(Stealing, [1], None), Worker(AtTop, [], None)];
  }

  /**
    A wake is lost: reached from a fresh pool, a task that has been overtaken is asleep at level 0 on an interest
    that told another task, and no continuation notifies for that interest again.
  */
  lemma SomeWakeIsLost() returns (s: System, t: nat, iid: nat)
    ensures Reachable(s) && t < |s.tasks| && !s.tasks[t].done && s.tasks[t].level == 0 && iid in s.tasks[t].waits
    ensures iid < |s.interests| && s.interests[iid].told.Some? && s.interests[iid].told.value != t
    ensures forall run :: Legal(s, run) ==> Reportings(s, run, iid) == 0
  {
    var before := OvertakenIsReached();
    hide Reachable, Enabled, Legal, Reportings;
    s := MovedFutureLosesWake(before, 0, 1, 1, 0);
    t, iid := 1, 0;
    ReachableInv(s);
    TaskIsInv(s, t);
    hide Inv, WakeToCome;
    ZeroIsUnfinished(s.tasks[t]);
    EndToEndWake(s, t, iid);
    ToldOrToCome(s, iid);
  }

  /**
    A sleeper is replaced: reached from a fresh pool, a task is asleep at level 0 on an interest that is unfired, but
    another task has registered there since.  The sleeper's last reference is gone, and no continuation touches it.
  */
  lemma SomeSleeperIsReplaced() returns (s: System, t: nat, iid: nat)
    ensures Reachable(s) && s.active && t < |s.tasks| && !s.tasks[t].done && s.tasks[t].level == 0 && iid in s.tasks[t].waits
    ensures WakeToCome(s, iid) && s.interests[iid].told == None && s.interests[iid].slot != t && s.tasks[t].strong == 0
    ensures forall run :: Legal(s, run) ==> t < |Exec(s, run).tasks| && Exec(s, run).tasks[t] == s.tasks[t]
  {
    t, iid := 0, 0;
    s := Replaced();
    hide Reachable, Legal, WakeToCome;
    ToldOrToCome(s, iid);
    forall run | Legal(s, run) ensures t < |Exec(s, run).tasks| && Exec(s, run).tasks[t] == s.tasks[t] { ReleasedForGood(s, run, t); }
  }

  /** The second task registers before anything has fired. */
  lemma Replaced() returns (s: System)
    ensures Reachable(s) && s.active && |s.tasks| == 2 && s.tasks[0].level == 0 && !s.tasks[0].done && 0 in s.tasks[0].waits
    ensures s.tasks[0].strong == 0 && s.interests == [Interest(0, {READ}, false, 1, 0, None, false)]
  {
    hide Reachable, Apply;
    var s1 := BothTasksRun();
    forall v | 0 <= v < |s1.workers| ensures PendingCount(s1.workers[v], 0) == 0 { }
    TotalZero(s1.workers, PendingCount, 0);
    RegisterSteps(s1, 0, 0);
    s := RegisterInterestStep(s1, 0, 0);
  }

  lemma RegisterSteps(s: System, w: nat, iid: InterestId)
    requires Reachable(s)
    ensures Enabled(s, RegisterInterest(w, iid)) ==> Reachable(RegisterInterestStep(s, w, iid))
  {
    hide Reachable;
    if Enabled(s, RegisterInterest(w, iid)) { ReachableStep(s, RegisterInterest(w, iid)); }
  }

  /** A notify from outside loses a task: the sleeper of that run, notified so, is never polled again. */
  lemma SomeOutsideNotifyLosesATask() returns (s: System, t: nat)
    ensures Reachable(s) && t < |s.tasks| && !s.tasks[t].done && s.tasks[t].level == 0
    ensures Lost(NotifyFromOutside(s, t), t)
  {
    var iid: nat;
    s, t, iid := SomeWakeIsLost();
    hide Reachable, Lost, Legal, Reportings;
    OutsideNotify(s, t);
  }
}
