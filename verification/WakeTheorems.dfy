/** What holds in every reachable state of the composed system. */
module WakeTheorems {
  import opened Prelude
  import opened Interests
  import opened TaskProtocol
  import opened WakeSystem
  import opened WakeInvariant
  import opened WakeProofs
  import opened WakeInterestProofs
  import Ch = CustomEvents

  lemma TaskStepKeepsInv(s: System, a: Action)
    requires Inv(s) && Enabled(s, a) && OfTasks(a)
    ensures Inv(Apply(s, a))
  {
    hide Inv;
    match a {
      case LoadLevel(w) => KeepLoad(s, w);
      case BeginPoll(w) => KeepBegin(s, w);
      case PollPending(w) => KeepPending(s, w);
      case PollReady(w) => KeepReady(s, w);
      case Swap(w) =>
        if s.tasks[s.workers[w].pc.task].level == s.workers[w].pc.seen { KeepSwapSleeps(s, w); } else { KeepSwapFails(s, w); }
      case Notify(w, t) => KeepNotify(s, w, t);
      case PushNotified(w) => KeepPushNotified(s, w);
      case ForeignNotify(t) => KeepForeignNotify(s, t);
      case CloneOwn(w) => KeepCloneOwn(s, w);
      case CloneHandle(t) => KeepCloneHandle(s, t);
      case DropHandle(t) => KeepDropHandle(s, t);
    }
  }

  lemma SweepKeepsInv(s: System, w: nat)
    requires Inv(s) && Enabled(s, SweepNext(w))
    ensures Inv(SweepStep(s, w))
  {
    hide Inv;
    var p := s.workers[w].pc;
    var d := s.tables[p.fd];
    if p.i >= |d.list| { KeepSweepEnd(s, w); }
    else if Hit(d.list[p.i].mask, p.word) { KeepSweepFire(s, w); }
    else { KeepSweepPass(s, w); }
  }

  lemma InterestStepKeepsInv(s: System, a: Action)
    requires Inv(s) && Enabled(s, a) && OfInterests(a)
    ensures Inv(Apply(s, a))
  {
    hide Inv, Enabled, DeliverFdStep, AddInterestStep, CheckInterestStep, RegisterInterestStep, DropInterestStep, TakeLockStep, SweepStep, FireNotifyStep,
         RemoveFiredStep;
    match a {
      case DeliverFd(w, f, word) => KeepDeliverFd(s, w, f, word);
      case OpenFd => KeepOpenFd(s);
      case AddInterest(w, f, mask) => KeepAddInterest(s, w, f, mask);
      case CheckInterest(w, iid) => KeepCheckInterest(s, w, iid);
      case RegisterInterest(w, iid) => KeepRegisterInterest(s, w, iid);
      case DropInterest(iid) => KeepDropInterest(s, iid);
      case TakeLock(w) => KeepTakeLock(s, w);
      case SweepNext(w) => SweepKeepsInv(s, w);
      case FireNotify(w) => KeepFireNotify(s, w);
      case RemoveFired(w) => KeepRemoveFired(s, w);
    }
  }

  lemma LoopStepKeepsInv(s: System, a: Action)
    requires Inv(s) && Enabled(s, a) && !OfTasks(a) && !OfInterests(a) && !a.Shutdown?
    ensures Inv(Apply(s, a))
  {
    hide Inv, Enabled;
    match a {
      case SpawnPush => KeepSpawnPush(s);
      case SpawnWrite => KeepSpawnWrite(s);
      case CheckActive(w) => KeepCheckActive(s, w);
      case LocalDone(w) => KeepLocalDone(s, w);
      case Steal(w) => KeepSteal(s, w);
      case StealEmpty(w) => KeepStealEmpty(s, w);
      case StealInconsistent(w) => KeepStealInconsistent(s, w);
      case DeliverChannel(w) => KeepDeliverChannel(s, w);
      case ReturnFromWait(w) => KeepReturn(s, w);
      case Dispatch(w) => KeepDispatch(s, w);
      case ReadCount(w) => KeepReadCount(s, w);
      case PopDatum(w) => KeepPop(s, w);
      case RearmChannel(w) => KeepRearmChannel(s, w);
    }
  }

  lemma StepKeepsInv(s: System, a: Action)
    requires Inv(s) && Enabled(s, a)
    ensures Inv(Apply(s, a))
  {
    if OfTasks(a) { TaskStepKeepsInv(s, a); }
    else if OfInterests(a) { InterestStepKeepsInv(s, a); }
    else if !a.Shutdown? { LoopStepKeepsInv(s, a); }
  }

  lemma {:induction false} RunKeepsInv(s: System, run: seq<Action>)
    requires Inv(s) && Legal(s, run)
    ensures Inv(Exec(s, run))
    decreases |run|
  {
    hide Inv;
    if run != [] {
      StepKeepsInv(s, run[0]);
      RunKeepsInv(Apply(s, run[0]), run[1..]);
    }
  }

  /** Reached by some interleaving of the threads of a pool with some number of workers. */
  ghost predicate Reachable(s: System)
  {
    exists n: nat, run: seq<Action> :: Legal(Init(n), run) && s == Exec(Init(n), run)
  }

  lemma ReachableInv(s: System)
    requires Reachable(s)
    ensures Inv(s)
  {
    hide Inv;
    var n: nat, run: seq<Action> :| Legal(Init(n), run) && s == Exec(Init(n), run);
    InitInv(n);
    RunKeepsInv(Init(n), run);
  }

  // ---------------------------------------------------------------------------------------------------------
  // Tokens, polls, notifies

  predicate Polls(s: System, w: nat, t: nat) { w < |s.workers| && RunningTask(s.workers[w].pc) == Some(t) }

  /** Somebody has the task: it is posted, queued, in a do_poll, or in the hands of a notify about to push it. */
  predicate Held(s: System, t: nat)
  {
    t in s.channel.queue || exists w :: 0 <= w < |s.workers| && TokenCount(s.workers[w], t) > 0
  }

  /** Exclusive polling: two workers are never in do_poll of one task, so never in its UnsafeCell together. */
  lemma ExclusivePolling(s: System, v: nat, w: nat, t: nat)
    requires Reachable(s) && Polls(s, v, t) && Polls(s, w, t)
    ensures v == w && t < |s.tasks| && !s.tasks[t].done
    ensures t !in s.channel.queue && t !in s.workers[w].deque && s.workers[w].pending != Some(t)
  {
    ReachableInv(s);
    OneHolder(s, v, w, t);
    TokenIsDue(s, w, t);
    assert Occurrences(s.workers[w].deque, t) == 0;
  }

  /** One token: posted pointers, deque entries, active do_polls and unpushed notifies of a task add up to one or none. */
  lemma SingleToken(s: System, t: nat)
    requires Reachable(s)
    ensures Occurrences(s.channel.queue, t) + Total(s.workers, TokenCount, t)
            == One(t < |s.tasks| && !s.tasks[t].done && s.tasks[t].level > 0)
  {
    ReachableInv(s);
    assert Total(s.workers, TokenCount, t) + Occurrences(s.channel.queue, t) == Due(s.tasks, t);
  }

  /** A task is held by somebody exactly when it is unfinished and its level is above 0. */
  lemma HeldIffDue(s: System, t: nat)
    requires Reachable(s) && t < |s.tasks|
    ensures Held(s, t) <==> !s.tasks[t].done && s.tasks[t].level > 0
  {
    ReachableInv(s);
    assert Total(s.workers, TokenCount, t) + Occurrences(s.channel.queue, t) == Due(s.tasks, t);
    if !s.tasks[t].done && s.tasks[t].level > 0 && t !in s.channel.queue {
      var w := TotalWitness(s.workers, TokenCount, t);
    }
    if w :| 0 <= w < |s.workers| && TokenCount(s.workers[w], t) > 0 { TotalAtLeast(s.workers, w, TokenCount, t); }
  }

  /** Every poll beyond a task's first was paid for by a notify; at level 0 every notify has had its poll. */
  lemma PolledEnough(s: System, t: nat)
    requires Reachable(s) && t < |s.tasks|
    ensures CountOf(s.tasks[t].log, Began) <= 1 + CountOf(s.tasks[t].log, Notified)
    ensures s.tasks[t].level == 0 ==>
              forall i :: 0 <= i < |s.tasks[t].log| && s.tasks[t].log[i] == Notified ==> PolledAfter(s.tasks[t].log, i)
  {
    ReachableInv(s);
    var k := s.tasks[t];
    assert TaskInv(k);
    hide Inv, TaskInv;
    PollBudget(k.log) by { TaskLogGood(k); }
    if k.level == 0 {
      forall i | 0 <= i < |k.log| && k.log[i] == Notified ensures PolledAfter(k.log, i) { NoLostNotify(k, i); }
    }
  }

  lemma TaskLogGood(k: Task)
    requires TaskInv(k)
    ensures GoodLog(k.log)
  {
  }

  // ---------------------------------------------------------------------------------------------------------
  // All workers blocked

  predicate AllBlocked(s: System) { forall w :: 0 <= w < |s.workers| ==> s.workers[w].pc == Waiting(true, []) }

  lemma BlockedHoldNothing(s: System)
    requires Inv(s) && AllBlocked(s)
    ensures forall t: nat :: Total(s.workers, TokenCount, t) == 0 && Total(s.workers, FiringCount, t) == 0
                             && Total(s.workers, WindowCount, t) == 0 && Total(s.workers, DeliveryCount, t) == 0
    ensures s.channel.handlers == map[] && forall f :: 0 <= f < |s.tables| ==> s.tables[f].lock == None
  {
    hide TasksOK, TokensOK, RefsOK, SlotsOK, BorrowsOK, RunsOK, ChannelOK, TablesOK, EntriesOK, ListedOK, InterestsOK, TellsOK, WaitsOK;
    forall w | 0 <= w < |s.workers| ensures s.workers[w].deque == [] && s.workers[w].pending == None && w !in s.channel.handlers {
      assert WorkerOK(s.tasks, s.tables, s.interests, w, s.workers[w]);
      assert LinkOK(s.channel, w, s.workers[w]);
    }
    forall t: nat
      ensures Total(s.workers, TokenCount, t) == 0 && Total(s.workers, FiringCount, t) == 0
              && Total(s.workers, WindowCount, t) == 0 && Total(s.workers, DeliveryCount, t) == 0
    {
      TotalZero(s.workers, TokenCount, t);
      TotalZero(s.workers, FiringCount, t);
      TotalZero(s.workers, WindowCount, t);
      TotalZero(s.workers, DeliveryCount, t);
    }
  }

  lemma EmptyQueue(c: Ch.Chan)
    requires Ch.Inv(c) && c.handlers == map[] && c.count == 0 && c.unwritten == 0
    ensures c.queue == [] && c.handed == c.pushed && c.armed == (c.phase != Ch.Unregistered)
  {
    assert !Ch.SomeAt(c, Ch.Draining);
    assert c.queue == [] ==> c.handed + c.queue == c.handed;
  }

  /**
    No stranded work.  When every worker is blocked in `turn`, no post is half done and the eventfd is at 0, then
    nothing is queued anywhere and every spawned task is finished or suspended at level 0, each notify it ever had
    followed by a complete poll.
  */
  lemma NoStrandedWork(s: System, t: nat)
    requires Reachable(s) && AllBlocked(s) && s.channel.count == 0 && s.channel.unwritten == 0 && t < |s.tasks|
    ensures s.channel.queue == [] && !Held(s, t)
    ensures !s.tasks[t].done ==>
              s.tasks[t].level == 0
              && forall i :: 0 <= i < |s.tasks[t].log| && s.tasks[t].log[i] == Notified ==> PolledAfter(s.tasks[t].log, i)
  {
    ReachableInv(s);
    assert ChannelOK(s.channel, |s.tasks|);
    assert TokensOK(s.tasks, s.channel.queue, s.workers);
    BlockedHoldNothing(s);
    hide Inv;
    EmptyQueue(s.channel);
    assert Occurrences([], t) == 0;
    HeldIffDue(s, t);
    assert Total(s.workers, TokenCount, t) + Occurrences(s.channel.queue, t) == Due(s.tasks, t);
    PolledEnough(s, t);
  }

  /**
    The other side: with every worker blocked and some task still due a poll, a post is about to be written or
    the channel can be delivered to any of the workers.
  */
  lemma WorkWakesAWorker(s: System, t: nat, w: nat)
    requires Reachable(s) && AllBlocked(s) && w < |s.workers|
    requires t < |s.tasks| && !s.tasks[t].done && s.tasks[t].level > 0
    ensures t in s.channel.queue && (Enabled(s, SpawnWrite) || Enabled(s, DeliverChannel(w)))
  {
    ReachableInv(s);
    BlockedWorkIsPosted(s, t, w);
    hide Inv, AllBlocked, Reachable;
    WaiterIsServed(s, w);
  }

  lemma BlockedWorkIsPosted(s: System, t: nat, w: nat)
    requires Inv(s) && AllBlocked(s) && w < |s.workers| && t < |s.tasks| && !s.tasks[t].done && s.tasks[t].level > 0
    ensures t in s.channel.queue && s.workers[w] == Worker(Waiting(true, []), [], None)
    ensures Ch.Inv(s.channel) && s.channel.phase == Ch.Published && s.channel.handlers == map[]
  {
    hide TasksOK, RefsOK, SlotsOK, BorrowsOK, RunsOK, LinksOK, LocksOK, TablesOK, EntriesOK, ListedOK, InterestsOK, TellsOK, WaitsOK;
    assert WorkerOK(s.tasks, s.tables, s.interests, w, s.workers[w]);
    assert Total(s.workers, TokenCount, t) + Occurrences(s.channel.queue, t) == Due(s.tasks, t);
    BlockedHoldNothing(s);
  }

  lemma WaiterIsServed(s: System, w: nat)
    requires w < |s.workers| && s.workers[w] == Worker(Waiting(true, []), [], None)
    requires Ch.Inv(s.channel) && s.channel.phase == Ch.Published && s.channel.handlers == map[]
    ensures s.channel.queue != [] ==> Enabled(s, SpawnWrite) || Enabled(s, DeliverChannel(w))
    ensures s.channel.count > 0 ==> Enabled(s, DeliverChannel(w))
  {
    assert !Ch.SomeAt(s.channel, Ch.Draining);
  }

  // ---------------------------------------------------------------------------------------------------------
  // Interests

  predicate ListedIn(d: Table, iid: nat) { exists k :: 0 <= k < |d.list| && d.list[k].who == iid }

  /** A handler has stored `fired` for the interest and not yet called notify. */
  predicate AboutToNotify(s: System, iid: nat)
  {
    exists w :: 0 <= w < |s.workers| && s.workers[w].pc.AtFire? && s.workers[w].pc.iid == iid
  }

  /** An unfired interest is listed in the table of its fd. */
  lemma UnfiredIsListed(s: System, iid: nat)
    requires ListedOK(s.tables, s.interests, s.workers) && EntriesOK(s.tables, s.interests)
    requires iid < |s.interests| && !s.interests[iid].fired
    ensures var f := s.interests[iid].fd; f < |s.tables| && ListedIn(s.tables[f], iid)
  {
    assert Total(s.tables, ListedCount, iid) > 0;
    var f := TotalWitness(s.tables, ListedCount, iid);
    var ids := Ids(s.tables[f].list);
    assert iid in ids;
    var k :| 0 <= k < |ids| && ids[k] == iid;
    assert s.tables[f].list[k].who == iid;
  }

  lemma ListedOnlyThere(s: System, iid: nat, f: nat)
    requires ListedOK(s.tables, s.interests, s.workers) && EntriesOK(s.tables, s.interests)
    requires f < |s.tables| && ListedIn(s.tables[f], iid)
    ensures iid < |s.interests| && f == s.interests[iid].fd
    ensures !s.interests[iid].fired || Total(s.workers, WindowCount, iid) > 0
  {
    var k :| 0 <= k < |s.tables[f].list| && s.tables[f].list[k].who == iid;
    assert Ids(s.tables[f].list)[k] == iid;
    assert ListedCount(s.tables[f], iid) > 0;
    TotalAtLeast(s.tables, f, ListedCount, iid);
  }

  lemma WindowIsListed(s: System, iid: nat)
    requires WorkersOK(s.tasks, s.tables, s.interests, s.workers) && EntriesOK(s.tables, s.interests)
    requires Total(s.workers, WindowCount, iid) > 0
    ensures iid < |s.interests| && s.interests[iid].fd < |s.tables| && ListedIn(s.tables[s.interests[iid].fd], iid)
  {
    hide StageOf, LoadedLevel, RearmMask;
    var w := TotalWitness(s.workers, WindowCount, iid);
    assert WorkerOK(s.tasks, s.tables, s.interests, w, s.workers[w]);
    var p := s.workers[w].pc;
    assert s.tables[p.fd].list[p.i].who == iid;
    assert p.fd == s.interests[iid].fd;
  }

  /**
    Life cycle: an interest is in its table exactly while it is unfired or a handler is between storing `fired`
    and removing it; it is nowhere else.
  */
  lemma InterestLifeCycle(s: System, iid: nat, f: nat)
    requires Reachable(s) && iid < |s.interests| && f < |s.tables|
    ensures ListedIn(s.tables[f], iid) <==>
              f == s.interests[iid].fd && (!s.interests[iid].fired || Total(s.workers, WindowCount, iid) > 0)
  {
    ReachableInv(s);
    hide TasksOK, TokensOK, RefsOK, SlotsOK, BorrowsOK, RunsOK, WorkersOK, ChannelOK, LinksOK, LocksOK, TablesOK, EntriesOK,
         ListedOK, InterestsOK, TellsOK, WaitsOK;
    if ListedIn(s.tables[f], iid) { ListedOnlyThere(s, iid, f); }
    if !s.interests[iid].fired { UnfiredIsListed(s, iid); }
    if Total(s.workers, WindowCount, iid) > 0 { WindowIsListed(s, iid); }
  }

  /** A delivery for the fd has been received by a worker that has not finished handling it. */
  predicate Coming(s: System, f: nat) { exists w :: 0 <= w < |s.workers| && DeliveryCount(s.workers[w], f) > 0 }

  /**
    Armed-mask agreement: a table with interests either is armed with exactly the union of their masks, or has a
    delivery still to be handled; and whenever it is armed and no handler has its lock, that union is what it is
    armed with.
  */
  lemma ArmedAgreement(s: System, f: nat)
    requires Reachable(s) && f < |s.tables| && s.tables[f].list != []
    ensures s.tables[f].armed == Some(Union(s.tables[f].list)) || Coming(s, f)
    ensures s.tables[f].lock == None && s.tables[f].armed.Some? ==> s.tables[f].armed == Some(Union(s.tables[f].list))
  {
    ReachableInv(s);
    var d := s.tables[f];
    assert ArmedOK(d, Total(s.workers, DeliveryCount, f));
    assert d.lock.Some? ==> Holds(s.workers, d.lock.value, f);
    hide Inv;
    if d.lock.Some? {
      assert DeliveryCount(s.workers[d.lock.value], f) > 0;
    } else if d.armed == None {
      var w := TotalWitness(s.workers, DeliveryCount, f);
    }
  }

  /** The interest can still notify: it is unfired and in its table, or a handler is about to. */
  ghost predicate WakeToCome(s: System, iid: nat)
  {
    && iid < |s.interests|
    && (AboutToNotify(s, iid)
        || (!s.interests[iid].fired && s.interests[iid].fd < |s.tables| && ListedIn(s.tables[s.interests[iid].fd], iid)))
  }

  /** The interest can still notify task `t`: it can still notify, and the task is in its slot. */
  ghost predicate WakeFor(s: System, t: nat, iid: nat) { WakeToCome(s, iid) && s.interests[iid].slot == t }

  /** The one notify of an interest is made, or it is still to come. */
  lemma ToldOrToCome(s: System, iid: nat)
    requires Reachable(s) && iid < |s.interests|
    ensures WakeToCome(s, iid) <==> s.interests[iid].told == None
    ensures s.interests[iid].told.Some? <==> s.interests[iid].fired && !AboutToNotify(s, iid)
  {
    ReachableInv(s);
    hide TasksOK, TokensOK, RefsOK, SlotsOK, BorrowsOK, RunsOK, WorkersOK, ChannelOK, LinksOK, LocksOK, TablesOK, EntriesOK, ListedOK,
         InterestsOK, WaitsOK;
    assert Fires(s.interests, iid) == Tells(s.interests, iid) + Total(s.workers, FiringCount, iid);
    if AboutToNotify(s, iid) {
      var w :| 0 <= w < |s.workers| && s.workers[w].pc.AtFire? && s.workers[w].pc.iid == iid;
      TotalAtLeast(s.workers, w, FiringCount, iid);
    }
    if Total(s.workers, FiringCount, iid) > 0 { var w := TotalWitness(s.workers, FiringCount, iid); }
    if !s.interests[iid].fired { UnfiredIsListed(s, iid); }
  }

  /**
    End-to-end wake.  A task suspended at level 0 that waits on an interest its last poll saw unfired: the wake is
    still to come if and only if the interest has told nobody and no other task has taken the sleeper's place in its
    slot.  It has never told the sleeper, and if it was polled only by the task that made it, both conditions hold.
  */
  lemma EndToEndWake(s: System, t: nat, iid: nat)
    requires Reachable(s) && t < |s.tasks| && !s.tasks[t].done && s.tasks[t].level == 0 && iid in s.tasks[t].waits
    ensures iid < |s.interests| && s.interests[iid].told != Some(t)
    ensures WakeFor(s, t, iid) <==> s.interests[iid].told == None && s.interests[iid].slot == t
    ensures iid !in s.moved ==> WakeFor(s, t, iid)
  {
    ReachableInv(s);
    hide TasksOK, TokensOK, RefsOK, SlotsOK, BorrowsOK, RunsOK, WorkersOK, ChannelOK, LinksOK, LocksOK, TablesOK, EntriesOK, ListedOK,
         TellsOK, WakeToCome, Reachable;
    assert WaitOK(s.tasks[t], t, s.interests, s.moved, iid);
    ToldOrToCome(s, iid);
  }

  /** The interest is unfired and listed, in a table that the kernel has armed with a mask that includes it. */
  ghost predicate ArmedFor(s: System, iid: nat)
  {
    && iid < |s.interests| && !s.interests[iid].fired
    && var x := s.interests[iid];
       && x.fd < |s.tables| && ListedIn(s.tables[x.fd], iid)
       && s.tables[x.fd].armed.Some? && x.mask <= s.tables[x.fd].armed.value
  }

  /** With every worker blocked, the kernel is armed for every interest that can still notify. */
  lemma BlockedIsArmed(s: System, iid: nat)
    requires Reachable(s) && AllBlocked(s) && WakeToCome(s, iid)
    ensures ArmedFor(s, iid)
  {
    ReachableInv(s);
    BlockedHoldNothing(s);
    var x := s.interests[iid];
    var d := s.tables[x.fd];
    assert TablesOK(s.tables, s.workers) && EntriesOK(s.tables, s.interests);
    hide Inv;
    var k :| 0 <= k < |d.list| && d.list[k].who == iid;
    assert d.list[k].mask == x.mask;
    EntryInUnion(d.list, k);
    assert ArmedOK(d, 0);
  }

  /**
    Nobody sleeps unarmed.  Put together: when every worker is blocked, no post is half done and the eventfd is
    at 0, every unfinished task is suspended; and for each interest it waits on, the kernel is armed and the task is
    in the slot if and only if the interest has told nobody and no other task has taken its place.
  */
  lemma SleepersAreArmed(s: System, t: nat, iid: nat)
    requires Reachable(s) && AllBlocked(s) && s.channel.count == 0 && s.channel.unwritten == 0
    requires t < |s.tasks| && !s.tasks[t].done && iid in s.tasks[t].waits
    ensures s.tasks[t].level == 0 && iid < |s.interests| && s.interests[iid].told != Some(t)
    ensures ArmedFor(s, iid) <==> s.interests[iid].told == None
    ensures ArmedFor(s, iid) && s.interests[iid].slot == t <==> WakeFor(s, t, iid)
    ensures iid !in s.moved ==> ArmedFor(s, iid) && s.interests[iid].slot == t
  {
    hide Reachable, AllBlocked, ArmedFor, WakeToCome;
    NoStrandedWork(s, t);
    EndToEndWake(s, t, iid);
    ToldOrToCome(s, iid);
    if WakeToCome(s, iid) { BlockedIsArmed(s, iid); }
    if ArmedFor(s, iid) { ArmedIsToCome(s, iid); }
  }

  lemma ArmedIsToCome(s: System, iid: nat)
    requires ArmedFor(s, iid)
    ensures WakeToCome(s, iid)
  {
  }

  // ---------------------------------------------------------------------------------------------------------
  // References and the channel

  /** The task an action reads, polls or notifies through a pointer or a handle. */
  function Touches(s: System, a: Action): Option<TaskId>
    requires Enabled(s, a)
  {
    match a
    case LoadLevel(w) => Some(s.workers[w].pc.task)
    case BeginPoll(w) => Some(s.workers[w].pc.task)
    case PollPending(w) => Some(s.workers[w].pc.task)
    case PollReady(w) => Some(s.workers[w].pc.task)
    case Swap(w) => Some(s.workers[w].pc.task)
    case Notify(w, t) => Some(t)
    case PushNotified(w) => s.workers[w].pending
    case ForeignNotify(t) => Some(t)
    case CloneOwn(w) => Some(s.workers[w].pc.task)
    case CloneHandle(t) => Some(t)
    case DropHandle(t) => Some(t)
    case RegisterInterest(w, iid) => Some(s.interests[iid].slot)
    case DropInterest(iid) => Some(s.interests[iid].slot)
    case PopDatum(w) => if s.channel.queue == [] then None else Some(s.channel.queue[0])
    case Steal(w) => Some(s.workers[w].deque[0])
    case FireNotify(w) => Some(s.interests[s.workers[w].pc.iid].slot)
    case _ => None
  }

  /** The strong count is what the threads, the channel and the handles own, at every moment. */
  lemma ReferencesConserved(s: System, t: nat)
    requires Reachable(s) && t < |s.tasks|
    ensures s.tasks[t].strong
            == Occurrences(s.channel.queue, t) + Total(s.workers, RefCount, t) + s.handles[t]
    ensures s.tasks[t].strong == 0 ==>
              !Held(s, t) && s.handles[t] == 0
              && forall iid :: 0 <= iid < |s.interests| && s.interests[iid].slot == t ==> s.interests[iid].gone
  {
    ReachableInv(s);
    assert Total(s.workers, RefCount, t) + Occurrences(s.channel.queue, t) + s.handles[t] == StrongOf(s.tasks, t);
    assert Total(s.interests, SlotCount, t) <= s.handles[t] && Total(s.workers, PendingCount, t) <= s.handles[t];
    hide Inv;
    if s.tasks[t].strong == 0 {
      forall w | 0 <= w < |s.workers| ensures TokenCount(s.workers[w], t) == 0 {
        TotalAtLeast(s.workers, w, RefCount, t);
        TotalAtLeast(s.workers, w, PendingCount, t);
      }
      forall iid | 0 <= iid < |s.interests| && s.interests[iid].slot == t ensures s.interests[iid].gone {
        TotalAtLeast(s.interests, iid, SlotCount, t);
      }
    }
  }

  lemma TouchedToken(s: System, w: nat, t: nat)
    requires w < |s.workers| && TokenCount(s.workers[w], t) > 0
    ensures Held(s, t)
  {
  }

  lemma TouchedInDoPoll(s: System, a: Action)
    requires Enabled(s, a) && OfTasks(a) && Touches(s, a).Some?
    ensures var t := Touches(s, a).value; Held(s, t) || s.handles[t] > 0
  {
    hide Held;
    if !a.ForeignNotify? && !a.CloneHandle? && !a.DropHandle? && !a.Notify? { TouchedToken(s, a.w, Touches(s, a).value); }
  }

  lemma TouchedElsewhere(s: System, a: Action)
    requires SlotsOK(s.interests, s.handles) && WorkersOK(s.tasks, s.tables, s.interests, s.workers)
    requires Enabled(s, a) && !OfTasks(a) && Touches(s, a).Some?
    ensures var t := Touches(s, a).value; Held(s, t) || s.handles[t] > 0
  {
    hide WorkersOK, SlotsOK;
    if a.FireNotify? {
      FiringIsThere(s, a.w);
      SlotHasHandle(s, s.workers[a.w].pc.iid);
    } else if a.Steal? {
      assert Occurrences(s.workers[a.w].deque, s.workers[a.w].deque[0]) > 0;
    }
  }

  /** A held task, or one there is a handle to, has been spawned. */
  lemma HeldExists(s: System, t: nat)
    requires TokensOK(s.tasks, s.channel.queue, s.workers) && RefsOK(s.tasks, s.channel.queue, s.workers, s.handles)
    requires Held(s, t) || s.handles[t] > 0
    ensures t < |s.tasks|
  {
    assert Total(s.workers, TokenCount, t) + Occurrences(s.channel.queue, t) == Due(s.tasks, t);
    assert Total(s.workers, RefCount, t) + Occurrences(s.channel.queue, t) + s.handles[t] == StrongOf(s.tasks, t);
    if w :| 0 <= w < |s.workers| && TokenCount(s.workers[w], t) > 0 { TotalAtLeast(s.workers, w, TokenCount, t); }
  }

  /** No use after free: whatever task a step touches is still referenced. */
  lemma NoUseAfterFree(s: System, a: Action)
    requires Reachable(s) && Enabled(s, a) && Touches(s, a).Some?
    ensures var t := Touches(s, a).value; t < |s.tasks| && s.tasks[t].strong > 0
  {
    ReachableInv(s);
    hide TasksOK, TokensOK, RefsOK, SlotsOK, BorrowsOK, RunsOK, WorkersOK, ChannelOK, LinksOK, LocksOK, TablesOK, EntriesOK,
         ListedOK, InterestsOK, TellsOK, WaitsOK, Enabled, Touches, Held;
    var t := Touches(s, a).value;
    if OfTasks(a) { TouchedInDoPoll(s, a); } else { TouchedElsewhere(s, a); }
    HeldExists(s, t);
    ReferencesConserved(s, t);
    HeldIsReferenced(s, t);
  }

  lemma HeldIsReferenced(s: System, t: nat)
    requires RefsOK(s.tasks, s.channel.queue, s.workers, s.handles) && t < |s.tasks|
    ensures s.tasks[t].strong >= s.handles[t]
  {
    assert Total(s.workers, RefCount, t) + Occurrences(s.channel.queue, t) + s.handles[t] == StrongOf(s.tasks, t);
  }

  /** Every spawned task goes through the channel once, in the order of spawning; one handler at most is at work. */
  lemma SpawnedInOrder(s: System)
    requires Reachable(s)
    ensures |s.channel.handed + s.channel.queue| == |s.tasks|
    ensures forall i :: 0 <= i < |s.tasks| ==> (s.channel.handed + s.channel.queue)[i] == i
    ensures Ch.Safe(s.channel)
  {
    ReachableInv(s);
    assert ChannelOK(s.channel, |s.tasks|);
    hide Inv;
    Ch.InvIsSafe(s.channel);
  }
}
