/**
  Readiness included, the pool still comes to rest.  Runs in which the kernel also delivers events, each for a word
  that hits some interest in the table it is for, are finite, their length bounded beforehand.  A delivery that hits
  nobody is left out: it would be re-armed and could come again forever (`ReadWriteDeliveryFiresNobody`).
*/
module WakeBounds {
  import opened Prelude
  import opened Interests
  import opened TaskProtocol
  import opened WakeSystem
  import opened WakeInvariant
  import opened WakeInterestProofs
  import opened WakeTheorems
  import opened WakeRest
  import Ch = CustomEvents

  /** Some unfired interest at or after `from` is hit by the word. */
  predicate Helps(tables: seq<Table>, interests: seq<Interest>, f: nat, word: Mask, from: nat)
  {
    f < |tables| && exists k :: from <= k < |tables[f].list|
                                && Unfired(interests, tables[f].list[k].who) == 1 && Hit(tables[f].list[k].mask, word)
  }

  /** The internal steps, and deliveries that will fire somebody. */
  predicate Fed(s: System, a: Action) { Internal(a) || (a.DeliverFd? && Helps(s.tables, s.interests, a.fd, a.word, 0)) }

  predicate FedRun(s: System, run: seq<Action>)
    requires Legal(s, run)
    decreases |run|
  {
    run == [] || (Fed(s, run[0]) && FedRun(Apply(s, run[0]), run[1..]))
  }

  // ---------------------------------------------------------------------------------------------------------
  // Deliveries under way, and those among them that will fire nobody

  function FdEvents(batch: seq<Delivery>): nat
  {
    if batch == [] then 0 else FdEvents(batch[..|batch| - 1]) + One(batch[|batch| - 1].OnFd?)
  }

  function IdleEvents(tables: seq<Table>, interests: seq<Interest>, batch: seq<Delivery>): nat
  {
    if batch == [] then 0 else
      var last := batch[|batch| - 1];
      IdleEvents(tables, interests, batch[..|batch| - 1]) + One(last.OnFd? && !Helps(tables, interests, last.fd, last.word, 0))
  }

  function From(pc: Activity): nat
    requires HandlesFd(pc)
  {
    if pc.AtLock? then 0 else pc.i
  }

  function LoadCount(k: Worker, t: nat): nat { FdEvents(BatchOf(k.pc)) + One(HandlesFd(k.pc)) }

  function Idle(tables: seq<Table>, interests: seq<Interest>, k: Worker): nat
  {
    IdleEvents(tables, interests, BatchOf(k.pc))
    + One(HandlesFd(k.pc) && !Helps(tables, interests, k.pc.fd, k.pc.word, From(k.pc)))
  }

  function WorkersIdle(tables: seq<Table>, interests: seq<Interest>, ws: seq<Worker>): nat
  {
    if ws == [] then 0 else WorkersIdle(tables, interests, ws[..|ws| - 1]) + Idle(tables, interests, ws[|ws| - 1])
  }

  function ArmedCount(d: Table, t: nat): nat { One(d.armed.Some?) }

  function UnfiredCount(x: Interest, t: nat): nat { One(!x.fired) }

  /** Deliveries under way or possible, and those that will fire nobody; no step makes more of them. */
  function Tokens(s: System): nat { Total(s.workers, LoadCount, 0) + Total(s.tables, ArmedCount, 0) }
  function IdleTokens(s: System): nat { WorkersIdle(s.tables, s.interests, s.workers) + Total(s.tables, ArmedCount, 0) }

  function Times(a: nat, b: nat): nat { a * b }

  /** Each firing may turn every token idle; each delivery makes one that is not. */
  function Credit(s: System): nat { Times(Total(s.interests, UnfiredCount, 0), Tokens(s) + 1) + IdleTokens(s) }

  lemma {:induction false} IdleEventsBelow(tables: seq<Table>, interests: seq<Interest>, batch: seq<Delivery>)
    ensures IdleEvents(tables, interests, batch) <= FdEvents(batch)
  {
    if batch != [] { IdleEventsBelow(tables, interests, batch[..|batch| - 1]); }
  }

  lemma {:induction false} WorkersIdleBelow(tables: seq<Table>, interests: seq<Interest>, ws: seq<Worker>)
    ensures WorkersIdle(tables, interests, ws) <= Total(ws, LoadCount, 0)
  {
    if ws != [] {
      WorkersIdleBelow(tables, interests, ws[..|ws| - 1]);
      IdleEventsBelow(tables, interests, BatchOf(ws[|ws| - 1].pc));
    }
  }

  /** What helps in the old state still helps in the new one, where worker `k` is concerned. */
  ghost predicate StillHelps(tables: seq<Table>, interests: seq<Interest>, tables': seq<Table>, interests': seq<Interest>, k: Worker)
  {
    && (forall f: nat, word :: Helps(tables, interests, f, word, 0) ==> Helps(tables', interests', f, word, 0))
    && (HandlesFd(k.pc) && Helps(tables, interests, k.pc.fd, k.pc.word, From(k.pc)) ==>
          Helps(tables', interests', k.pc.fd, k.pc.word, From(k.pc)))
  }

  lemma {:induction false} IdleEventsShrink(tables: seq<Table>, interests: seq<Interest>, tables': seq<Table>, interests': seq<Interest>,
                                            batch: seq<Delivery>)
    requires forall f: nat, word :: Helps(tables, interests, f, word, 0) ==> Helps(tables', interests', f, word, 0)
    ensures IdleEvents(tables', interests', batch) <= IdleEvents(tables, interests, batch)
  {
    if batch != [] { IdleEventsShrink(tables, interests, tables', interests', batch[..|batch| - 1]); }
  }

  lemma {:induction false} WorkersIdleShrink(tables: seq<Table>, interests: seq<Interest>, tables': seq<Table>, interests': seq<Interest>,
                                             ws: seq<Worker>)
    requires forall v :: 0 <= v < |ws| ==> StillHelps(tables, interests, tables', interests', ws[v])
    ensures WorkersIdle(tables', interests', ws) <= WorkersIdle(tables, interests, ws)
  {
    hide Helps;
    if ws != [] {
      var last := ws[|ws| - 1];
      WorkersIdleShrink(tables, interests, tables', interests', ws[..|ws| - 1]);
      IdleEventsShrink(tables, interests, tables', interests', BatchOf(last.pc));
    }
  }

  lemma {:induction false} WorkersIdleSet(tables: seq<Table>, interests: seq<Interest>, ws: seq<Worker>, w: nat, k: Worker)
    requires w < |ws|
    ensures WorkersIdle(tables, interests, ws[w := k]) + Idle(tables, interests, ws[w])
            == WorkersIdle(tables, interests, ws) + Idle(tables, interests, k)
  {
    hide Idle;
    var last := |ws| - 1;
    if w < last {
      WorkersIdleSet(tables, interests, ws[..last], w, k);
      assert ws[w := k][..last] == ws[..last][w := k];
    } else {
      assert ws[w := k][..last] == ws[..last];
    }
  }

  lemma {:induction false} EventsFront(tables: seq<Table>, interests: seq<Interest>, batch: seq<Delivery>)
    requires batch != []
    ensures FdEvents(batch) == FdEvents(batch[1..]) + One(batch[0].OnFd?)
    ensures IdleEvents(tables, interests, batch)
            == IdleEvents(tables, interests, batch[1..]) + One(batch[0].OnFd? && !Helps(tables, interests, batch[0].fd, batch[0].word, 0))
  {
    hide Helps;
    if |batch| > 1 {
      EventsFront(tables, interests, batch[..|batch| - 1]);
      assert batch[..|batch| - 1][1..] == batch[1..][..|batch| - 2];
    }
  }

  lemma EventsBack(tables: seq<Table>, interests: seq<Interest>, batch: seq<Delivery>, d: Delivery)
    ensures FdEvents(batch + [d]) == FdEvents(batch) + One(d.OnFd?)
    ensures IdleEvents(tables, interests, batch + [d])
            == IdleEvents(tables, interests, batch) + One(d.OnFd? && !Helps(tables, interests, d.fd, d.word, 0))
  {
    assert (batch + [d])[..|batch|] == batch;
  }

  // ---------------------------------------------------------------------------------------------------------
  // Steps away from the tables

  /** No worker has more deliveries, or more idle ones, than before. */
  ghost predicate NoMoreLoad(s: System, s': System)
  {
    && s'.tables == s.tables && s'.interests == s.interests && |s'.workers| == |s.workers|
    && forall v :: 0 <= v < |s.workers| ==>
         LoadCount(s'.workers[v], 0) <= LoadCount(s.workers[v], 0)
         && Idle(s.tables, s.interests, s'.workers[v]) <= Idle(s.tables, s.interests, s.workers[v])
  }

  lemma {:induction false} LoadsBelow(tables: seq<Table>, interests: seq<Interest>, ws: seq<Worker>, ws': seq<Worker>)
    requires |ws'| == |ws|
    requires forall v :: 0 <= v < |ws| ==>
               LoadCount(ws'[v], 0) <= LoadCount(ws[v], 0) && Idle(tables, interests, ws'[v]) <= Idle(tables, interests, ws[v])
    ensures Total(ws', LoadCount, 0) <= Total(ws, LoadCount, 0)
    ensures WorkersIdle(tables, interests, ws') <= WorkersIdle(tables, interests, ws)
  {
    hide LoadCount, Idle;
    if ws != [] { LoadsBelow(tables, interests, ws[..|ws| - 1], ws'[..|ws| - 1]); }
  }

  lemma LessCredit(unfired: nat, tokens: nat, tokens': nat, idle: nat, idle': nat)
    requires tokens' <= tokens && idle' <= idle
    ensures Times(unfired, tokens' + 1) + idle' <= Times(unfired, tokens + 1) + idle
  {
  }

  lemma NoMoreLoadCredit(s: System, s': System)
    requires NoMoreLoad(s, s')
    ensures Credit(s') <= Credit(s)
  {
    LoadsBelow(s.tables, s.interests, s.workers, s'.workers);
    hide NoMoreLoad, LoadCount, Idle, Times;
    LessCredit(Total(s.interests, UnfiredCount, 0), Tokens(s), Tokens(s'), IdleTokens(s), IdleTokens(s'));
  }

  /** The worker has the same events in hand. */
  predicate SameDuty(j: Worker, k: Worker)
  {
    k.pc == j.pc || (BatchOf(k.pc) == BatchOf(j.pc) && !HandlesFd(k.pc) && !HandlesFd(j.pc))
  }

  ghost predicate SameDuties(s: System, s': System)
  {
    && s'.tables == s.tables && s'.interests == s.interests && |s'.workers| == |s.workers|
    && forall v :: 0 <= v < |s.workers| ==> SameDuty(s.workers[v], s'.workers[v])
  }

  lemma SameDutiesLoad(s: System, s': System)
    requires SameDuties(s, s')
    ensures NoMoreLoad(s, s')
  {
    hide Helps;
    forall v | 0 <= v < |s.workers|
      ensures LoadCount(s'.workers[v], 0) <= LoadCount(s.workers[v], 0)
      ensures Idle(s.tables, s.interests, s'.workers[v]) <= Idle(s.tables, s.interests, s.workers[v])
    {
      assert SameDuty(s.workers[v], s'.workers[v]);
    }
  }

  lemma PollStepDuties(s: System, a: Action)
    requires Enabled(s, a) && (a.LoadLevel? || a.BeginPoll? || a.PollPending?)
    ensures SameDuties(s, Apply(s, a))
  {
    hide NotifyTask, LoadTask, BeginTask, EndTask, SleepTask, FinishTask;
  }

  lemma EndStepDuties(s: System, a: Action)
    requires Enabled(s, a) && (a.PollReady? || a.Swap? || a.PushNotified?)
    ensures SameDuties(s, Apply(s, a))
  {
    hide NotifyTask, LoadTask, BeginTask, EndTask, SleepTask, FinishTask;
  }

  lemma LoopStepDuties(s: System, a: Action)
    requires Enabled(s, a) && Internal(a) && !OfTasks(a) && !OfInterests(a) && !a.Dispatch? && !a.DeliverChannel?
    ensures SameDuties(s, Apply(s, a))
  {
    hide Ch.Apply;
    assert Apply(s, a) == ApplyToLoop(s, a);
  }

  lemma DispatchLoad(s: System, w: nat)
    requires Enabled(s, Dispatch(w))
    ensures NoMoreLoad(s, Apply(s, Dispatch(w)))
  {
    hide Helps;
    var batch := s.workers[w].pc.batch;
    if batch != [] { EventsFront(s.tables, s.interests, batch); }
  }

  lemma ServeLoad(s: System, w: nat)
    requires Enabled(s, DeliverChannel(w))
    ensures NoMoreLoad(s, Apply(s, DeliverChannel(w)))
  {
    hide Helps, Ch.Apply;
    EventsBack(s.tables, s.interests, s.workers[w].pc.batch, Custom);
  }

  lemma PlainStepCredit(s: System, a: Action)
    requires Enabled(s, a) && Internal(a) && !OfInterests(a)
    ensures Credit(Apply(s, a)) <= Credit(s) && Apply(s, a).tables == s.tables
  {
    hide Enabled, Apply, Credit;
    if a.LoadLevel? || a.BeginPoll? || a.PollPending? { PollStepDuties(s, a); SameDutiesLoad(s, Apply(s, a)); }
    else if OfTasks(a) { EndStepDuties(s, a); SameDutiesLoad(s, Apply(s, a)); }
    else if a.Dispatch? { DispatchLoad(s, a.w); }
    else if a.DeliverChannel? { ServeLoad(s, a.w); }
    else { LoopStepDuties(s, a); SameDutiesLoad(s, Apply(s, a)); }
    NoMoreLoadCredit(s, Apply(s, a));
  }

  // ---------------------------------------------------------------------------------------------------------
  // The handler of an fd

  /** The list of every table is as it was, and so is every flag: what helped helps. */
  lemma HelpsAsBefore(tables: seq<Table>, interests: seq<Interest>, tables': seq<Table>, interests': seq<Interest>,
                      f: nat, word: Mask, from: nat)
    requires |tables'| == |tables| && |interests'| == |interests|
    requires forall g :: 0 <= g < |tables| ==> tables'[g].list == tables[g].list
    requires forall i :: 0 <= i < |interests| ==> interests'[i].fired == interests[i].fired
    ensures Helps(tables', interests', f, word, from) <==> Helps(tables, interests, f, word, from)
  {
    assert forall i: nat :: Unfired(interests', i) == Unfired(interests, i);
  }

  lemma SameHelp(tables: seq<Table>, interests: seq<Interest>, tables': seq<Table>, interests': seq<Interest>)
    requires |tables'| == |tables| && |interests'| == |interests|
    requires forall g :: 0 <= g < |tables| ==> tables'[g].list == tables[g].list
    requires forall i :: 0 <= i < |interests| ==> interests'[i].fired == interests[i].fired
    ensures forall f: nat, word, from :: Helps(tables', interests', f, word, from) <==> Helps(tables, interests, f, word, from)
  {
    forall f: nat, word, from: nat ensures Helps(tables', interests', f, word, from) <==> Helps(tables, interests, f, word, from) {
      HelpsAsBefore(tables, interests, tables', interests', f, word, from);
    }
  }

  /** Worker `w` becomes `k` and the tables change with it; `spent` is by how much there are fewer idle tokens. */
  lemma MoveCredit(s: System, w: nat, k: Worker, tables': seq<Table>, interests': seq<Interest>, spent: nat)
    requires w < |s.workers| && forall v :: 0 <= v < |s.workers| && v != w ==> StillHelps(s.tables, s.interests, tables', interests', s.workers[v])
    requires LoadCount(k, 0) + Total(tables', ArmedCount, 0) <= LoadCount(s.workers[w], 0) + Total(s.tables, ArmedCount, 0)
    requires Idle(tables', interests', k) + Total(tables', ArmedCount, 0) + spent
             <= Idle(s.tables, s.interests, s.workers[w]) + Total(s.tables, ArmedCount, 0)
    requires Total(interests', UnfiredCount, 0) == Total(s.interests, UnfiredCount, 0)
    ensures Credit(s.(workers := s.workers[w := k], tables := tables', interests := interests')) + spent <= Credit(s)
  {
    hide Helps, LoadCount, Idle, StillHelps, Times;
    IdleWith(s.tables, s.interests, tables', interests', s.workers, w, k);
    TotalSet(s.workers, w, k, LoadCount, 0);
    var s' := s.(workers := s.workers[w := k], tables := tables', interests := interests');
    LessCredit(Total(s.interests, UnfiredCount, 0), Tokens(s), Tokens(s'), IdleTokens(s), IdleTokens(s') + spent);
  }

  /** Credit counts workers, tables and interests only. */
  lemma CreditOf(s: System, s': System)
    requires s'.workers == s.workers && s'.tables == s.tables && s'.interests == s.interests
    ensures Credit(s') == Credit(s)
  {
  }

  lemma {:induction false} IdleWith(tables: seq<Table>, interests: seq<Interest>, tables': seq<Table>, interests': seq<Interest>,
                                    ws: seq<Worker>, w: nat, k: Worker)
    requires w < |ws|
    requires forall v :: 0 <= v < |ws| && v != w ==> StillHelps(tables, interests, tables', interests', ws[v])
    ensures WorkersIdle(tables', interests', ws[w := k]) + Idle(tables, interests, ws[w])
            <= WorkersIdle(tables, interests, ws) + Idle(tables', interests', k)
  {
    hide Helps, Idle, StillHelps;
    var last := |ws| - 1;
    if w < last {
      IdleWith(tables, interests, tables', interests', ws[..last], w, k);
      assert ws[w := k][..last] == ws[..last][w := k];
      OneIdleShrinks(tables, interests, tables', interests', ws[last]);
    } else {
      assert ws[w := k][..last] == ws[..last];
      WorkersIdleShrink(tables, interests, tables', interests', ws[..last]);
    }
  }

  lemma OneIdleShrinks(tables: seq<Table>, interests: seq<Interest>, tables': seq<Table>, interests': seq<Interest>, k: Worker)
    requires StillHelps(tables, interests, tables', interests', k)
    ensures Idle(tables', interests', k) <= Idle(tables, interests, k)
  {
    hide Helps;
    IdleEventsShrink(tables, interests, tables', interests', BatchOf(k.pc));
  }

  lemma LockCredit(s: System, w: nat)
    requires Enabled(s, TakeLock(w))
    ensures Credit(TakeLockStep(s, w)) <= Credit(s)
  {
    var p := s.workers[w].pc;
    var d, k := s.tables[p.fd].(lock := Some(w)), TakeLockStep(s, w).workers[w];
    SameHelp(s.tables, s.interests, s.tables[p.fd := d], s.interests);
    hide Helps, Credit;
    TotalSet(s.tables, p.fd, d, ArmedCount, 0);
    IdleEventsShrink(s.tables, s.interests, s.tables[p.fd := d], s.interests, p.batch);
    MoveCredit(s, w, k, s.tables[p.fd := d], s.interests, 0);
  }

  lemma PassCredit(s: System, w: nat)
    requires Enabled(s, SweepNext(w))
    requires var p := s.workers[w].pc; p.i < |s.tables[p.fd].list| && !Hit(s.tables[p.fd].list[p.i].mask, p.word)
    ensures Credit(SweepStep(s, w)) <= Credit(s)
  {
    var p := s.workers[w].pc;
    assert Helps(s.tables, s.interests, p.fd, p.word, p.i) ==> Helps(s.tables, s.interests, p.fd, p.word, p.i + 1);
    hide Helps, Credit;
    MoveCredit(s, w, SweepStep(s, w).workers[w], s.tables, s.interests, 0);
  }

  /** The end of a sweep: the delivery is used up, and was idle by then; the table may be armed again. */
  lemma EndCredit(s: System, w: nat)
    requires Enabled(s, SweepNext(w)) && s.workers[w].pc.i >= |s.tables[s.workers[w].pc.fd].list|
    ensures Credit(SweepStep(s, w)) <= Credit(s)
  {
    var p := s.workers[w].pc;
    var tables' := SweepStep(s, w).tables;
    assert !Helps(s.tables, s.interests, p.fd, p.word, p.i);
    SameHelp(s.tables, s.interests, tables', s.interests);
    var k := SweepStep(s, w).workers[w];
    EndedIdle(s.tables, s.interests, tables', s.workers[w], k);
    hide Helps, Credit, Idle, LoadCount;
    TotalSet(s.tables, p.fd, tables'[p.fd], ArmedCount, 0);
    MoveCredit(s, w, k, tables', s.interests, 0);
  }

  lemma EndedIdle(tables: seq<Table>, interests: seq<Interest>, tables': seq<Table>, j: Worker, k: Worker)
    requires forall g: nat, v :: Helps(tables, interests, g, v, 0) ==> Helps(tables', interests, g, v, 0)
    requires j.pc.Sweeping? && k.pc == Dispatching(j.pc.batch) && !Helps(tables, interests, j.pc.fd, j.pc.word, j.pc.i)
    ensures LoadCount(k, 0) + 1 == LoadCount(j, 0) && Idle(tables', interests, k) + 1 <= Idle(tables, interests, j)
  {
    hide Helps;
    IdleEventsShrink(tables, interests, tables', interests, j.pc.batch);
  }

  lemma FireCredit(s: System, w: nat)
    requires Enabled(s, SweepNext(w))
    requires var p := s.workers[w].pc; p.i < |s.tables[p.fd].list| && Hit(s.tables[p.fd].list[p.i].mask, p.word)
                                       && !s.interests[s.tables[p.fd].list[p.i].who].fired
    ensures Credit(SweepStep(s, w)) <= Credit(s)
  {
    var p := s.workers[w].pc;
    var iid := s.tables[p.fd].list[p.i].who;
    var s' := SweepStep(s, w);
    hide Helps;
    TotalSet(s.interests, iid, s.interests[iid].(fired := true), UnfiredCount, 0);
    TotalSet(s.workers, w, s'.workers[w], LoadCount, 0);
    WorkersIdleBelow(s'.tables, s'.interests, s'.workers);
    hide LoadCount, WorkersIdle, Times;
    OneFewer(Total(s.interests, UnfiredCount, 0), Tokens(s), IdleTokens(s), IdleTokens(s'));
  }

  lemma OneFewer(unfired: nat, tokens: nat, idle: nat, idle': nat)
    requires unfired > 0 && idle' <= tokens
    ensures Times(unfired - 1, tokens + 1) + idle' <= Times(unfired, tokens + 1) + idle
  {
    assert unfired * (tokens + 1) == (unfired - 1) * (tokens + 1) + (tokens + 1);
  }

  lemma TellCredit(s: System, w: nat)
    requires Enabled(s, FireNotify(w))
    ensures Credit(FireNotifyStep(s, w)) <= Credit(s)
  {
    var s' := FireNotifyStep(s, w);
    var iid := s.workers[w].pc.iid;
    assert s'.workers == s.workers[w := s'.workers[w]];
    SameHelp(s.tables, s.interests, s.tables, s'.interests);
    hide Helps, Credit;
    TotalSet(s.interests, iid, s'.interests[iid], UnfiredCount, 0);
    IdleEventsShrink(s.tables, s.interests, s.tables, s'.interests, s.workers[w].pc.batch);
    MoveCredit(s, w, s'.workers[w], s.tables, s'.interests, 0);
    CreditOf(s.(workers := s'.workers, interests := s'.interests), s');
  }

  /** Removing a fired entry takes nothing away from whoever still has it before him. */
  lemma HelpsAfterRemoval(tables: seq<Table>, interests: seq<Interest>, f: nat, i: nat, g: nat, word: Mask, from: nat)
    requires f < |tables| && i < |tables[f].list| && Unfired(interests, tables[f].list[i].who) == 0
    requires (g == f ==> from <= i) && Helps(tables, interests, g, word, from)
    ensures Helps(tables[f := tables[f].(list := SwapRemove(tables[f].list, i))], interests, g, word, from)
  {
    var list := tables[g].list;
    var k :| from <= k < |list| && Unfired(interests, list[k].who) == 1 && Hit(list[k].mask, word);
    if g == f {
      assert SwapRemove(list, i)[if k == |list| - 1 then i else k] == list[k];
    } else {
      assert tables[f := tables[f].(list := SwapRemove(tables[f].list, i))][g].list[k] == list[k];
    }
  }

  /** The worker that removes has the lock, so no other worker is past the start of the table. */
  lemma AloneAtTable(s: System, w: nat, v: nat)
    requires WorkersOK(s.tasks, s.tables, s.interests, s.workers) && w < |s.workers| && v < |s.workers| && v != w
    requires s.workers[w].pc.AtRemove? && HoldsLock(s.workers[v].pc)
    ensures s.workers[v].pc.fd != s.workers[w].pc.fd
  {
    hide StageOf, LoadedLevel, RearmMask;
    assert WorkerOK(s.tasks, s.tables, s.interests, w, s.workers[w]) && WorkerOK(s.tasks, s.tables, s.interests, v, s.workers[v]);
  }

  lemma RemovedIsFired(s: System, w: nat)
    requires WorkersOK(s.tasks, s.tables, s.interests, s.workers) && w < |s.workers| && s.workers[w].pc.AtRemove?
    ensures var p := s.workers[w].pc;
            p.fd < |s.tables| && p.i < |s.tables[p.fd].list| && Unfired(s.interests, s.tables[p.fd].list[p.i].who) == 0
  {
    hide StageOf, LoadedLevel, RearmMask;
    assert WorkerOK(s.tasks, s.tables, s.interests, w, s.workers[w]);
  }

  lemma RemoveCredit(s: System, w: nat)
    requires Inv(s) && Enabled(s, RemoveFired(w))
    ensures Credit(RemoveFiredStep(s, w)) <= Credit(s)
  {
    WorkersAreOK(s);
    hide Inv, WorkersOK, Credit;
    LockedRemoveCredit(s, w);
  }

  lemma LockedRemoveCredit(s: System, w: nat)
    requires WorkersOK(s.tasks, s.tables, s.interests, s.workers) && Enabled(s, RemoveFired(w))
    ensures Credit(RemoveFiredStep(s, w)) <= Credit(s)
  {
    var p := s.workers[w].pc;
    var d := s.tables[p.fd].(list := SwapRemove(s.tables[p.fd].list, p.i));
    var tables' := s.tables[p.fd := d];
    RemovedIsFired(s, w);
    hide Helps, Credit, WorkersOK, Unfired;
    forall g: nat, word, from: nat | (g == p.fd ==> from <= p.i) && Helps(s.tables, s.interests, g, word, from)
      ensures Helps(tables', s.interests, g, word, from)
    {
      HelpsAfterRemoval(s.tables, s.interests, p.fd, p.i, g, word, from);
    }
    forall v | 0 <= v < |s.workers| && v != w ensures StillHelps(s.tables, s.interests, tables', s.interests, s.workers[v]) {
      if HoldsLock(s.workers[v].pc) { AloneAtTable(s, w, v); }
    }
    TotalSet(s.tables, p.fd, d, ArmedCount, 0);
    IdleEventsShrink(s.tables, s.interests, tables', s.interests, p.batch);
    MoveCredit(s, w, RemoveFiredStep(s, w).workers[w], tables', s.interests, 0);
  }

  /** A delivery that will fire somebody uses up credit. */
  lemma DeliverCredit(s: System, w: nat, f: nat, word: Mask)
    requires Enabled(s, DeliverFd(w, f, word)) && Helps(s.tables, s.interests, f, word, 0)
    ensures Credit(DeliverFdStep(s, w, f, word)) + 1 <= Credit(s)
  {
    var p, d := s.workers[w].pc, s.tables[f].(armed := None);
    var tables' := s.tables[f := d];
    SameHelp(s.tables, s.interests, tables', s.interests);
    var k := DeliverFdStep(s, w, f, word).workers[w];
    DeliveredIdle(s.tables, s.interests, tables', s.workers[w], k, f, word);
    hide Helps, Credit, Idle, LoadCount;
    TotalSet(s.tables, f, d, ArmedCount, 0);
    MoveCredit(s, w, k, tables', s.interests, 1);
  }

  lemma DeliveredIdle(tables: seq<Table>, interests: seq<Interest>, tables': seq<Table>, j: Worker, k: Worker, f: nat, word: Mask)
    requires forall g: nat, v :: Helps(tables, interests, g, v, 0) ==> Helps(tables', interests, g, v, 0)
    requires Helps(tables, interests, f, word, 0) && j.pc.Waiting? && k.pc == Waiting(j.pc.blocking, j.pc.batch + [OnFd(f, word)])
    ensures LoadCount(k, 0) == LoadCount(j, 0) + 1 && Idle(tables', interests, k) <= Idle(tables, interests, j)
  {
    hide Helps;
    EventsBack(tables', interests, j.pc.batch, OnFd(f, word));
    IdleEventsShrink(tables, interests, tables', interests, j.pc.batch);
  }

  lemma SweepCredit(s: System, w: nat)
    requires Inv(s) && Enabled(s, SweepNext(w))
    ensures Credit(SweepStep(s, w)) <= Credit(s)
  {
    hide TasksOK, TokensOK, RefsOK, SlotsOK, BorrowsOK, RunsOK, WorkersOK, ChannelOK, LinksOK, LocksOK, TablesOK, EntriesOK, ListedOK,
         InterestsOK, TellsOK, WaitsOK, Credit, SweepStep;
    var p := s.workers[w].pc;
    if p.i >= |s.tables[p.fd].list| {
      EndCredit(s, w);
    } else if Hit(s.tables[p.fd].list[p.i].mask, p.word) {
      ListedIsUnfired(s, w);
      FireCredit(s, w);
    } else {
      PassCredit(s, w);
    }
  }

  lemma WorkersAreOK(s: System)
    requires Inv(s)
    ensures WorkersOK(s.tasks, s.tables, s.interests, s.workers)
  {
    hide WorkersOK;
  }

  lemma HandlerStepCredit(s: System, a: Action)
    requires Inv(s) && Enabled(s, a) && (a.TakeLock? || a.SweepNext? || a.FireNotify? || a.RemoveFired?)
    ensures Credit(Apply(s, a)) <= Credit(s)
  {
    hide Inv, Credit, Enabled, TakeLockStep, SweepStep, FireNotifyStep, RemoveFiredStep;
    match a {
      case TakeLock(w) => LockCredit(s, w);
      case SweepNext(w) => SweepCredit(s, w);
      case FireNotify(w) => TellCredit(s, w);
      case RemoveFired(w) => RemoveCredit(s, w);
    }
  }

  // ---------------------------------------------------------------------------------------------------------
  // The bound

  ghost predicate ListsWithin(tables: seq<Table>, most: nat) { forall f: nat :: ListSize(tables, f) <= most }

  lemma RemovalKeepsWithin(s: System, w: nat, most: nat)
    requires Enabled(s, RemoveFired(w)) && ListsWithin(s.tables, most)
    ensures ListsWithin(Apply(s, RemoveFired(w)).tables, most)
  {
    forall f: nat ensures ListSize(Apply(s, RemoveFired(w)).tables, f) <= most { assert ListSize(s.tables, f) <= most; }
  }

  lemma SameSizes(tables: seq<Table>, tables': seq<Table>, most: nat)
    requires ListsWithin(tables, most) && |tables'| == |tables|
    requires forall f :: 0 <= f < |tables| ==> tables'[f].list == tables[f].list
    ensures ListsWithin(tables', most)
  {
    forall f: nat ensures ListSize(tables', f) <= most { assert ListSize(tables, f) <= most; }
  }

  lemma HandlerKeepsWithin(s: System, a: Action, most: nat)
    requires Enabled(s, a) && (a.TakeLock? || a.SweepNext? || a.FireNotify? || a.RemoveFired? || a.DeliverFd?)
    requires ListsWithin(s.tables, most)
    ensures ListsWithin(Apply(s, a).tables, most)
  {
    hide NotifyTask, Union, RearmMask, ListsWithin;
    if a.RemoveFired? { RemovalKeepsWithin(s, a.w, most); } else { SameSizes(s.tables, Apply(s, a).tables, most); }
  }

  /** A delivery adds the handling of one event. */
  lemma DeliverWork(s: System, w: nat, f: nat, word: Mask, most: nat)
    requires Enabled(s, DeliverFd(w, f, word)) && ListsWithin(s.tables, most)
    ensures Work(DeliverFdStep(s, w, f, word)) <= Work(s) + most + 8
  {
    hide ChannelWork;
    var p := s.workers[w].pc;
    var s' := DeliverFdStep(s, w, f, word);
    assert Shrunk(s.tables, s'.tables) && ListSize(s'.tables, f) <= most;
    WorkersWorkShrinks(s.tables, s'.tables, s.workers);
    WorkersWorkSet(s'.tables, s.workers, w, s'.workers[w]);
    assert (p.batch + [OnFd(f, word)])[..|p.batch|] == p.batch;
  }

  /** The measure: work left, and what the deliveries still to come can add to it. */
  ghost function Bound(s: System, most: nat): nat { Work(s) + Times(Credit(s), most + 9) }

  lemma LessBound(work: nat, work': nat, credit: nat, credit': nat, most: nat)
    requires (work' < work && credit' <= credit) || (work' <= work + most + 8 && credit' + 1 <= credit)
    ensures work' + Times(credit', most + 9) < work + Times(credit, most + 9)
  {
    if credit' + 1 <= credit {
      assert credit * (most + 9) >= (credit' + 1) * (most + 9) == credit' * (most + 9) + most + 9;
    } else {
      assert credit' == credit;
    }
  }

  lemma FedStepBound(s: System, a: Action, most: nat)
    requires Inv(s) && Enabled(s, a) && Fed(s, a) && ListsWithin(s.tables, most)
    ensures Bound(Apply(s, a), most) < Bound(s, most) && ListsWithin(Apply(s, a).tables, most)
  {
    hide Inv, Enabled, Work, Credit, ListsWithin, DeliverFdStep, Times;
    if a.DeliverFd? {
      DeliverCredit(s, a.w, a.fd, a.word);
      DeliverWork(s, a.w, a.fd, a.word, most);
      HandlerKeepsWithin(s, a, most);
    } else {
      InternalStepWorks(s, a);
      if OfInterests(a) {
        HandlerStepCredit(s, a);
        HandlerKeepsWithin(s, a, most);
      } else {
        PlainStepCredit(s, a);
      }
    }
    hide Apply;
    LessBound(Work(s), Work(Apply(s, a)), Credit(s), Credit(Apply(s, a)), most);
  }

  lemma {:induction false} FedRunBounded(s: System, run: seq<Action>, most: nat)
    requires Inv(s) && Legal(s, run) && FedRun(s, run) && ListsWithin(s.tables, most)
    ensures |run| <= Bound(s, most)
    decreases |run|
  {
    hide Inv, Enabled, Apply, Bound, ListsWithin, Fed;
    if run != [] {
      FedStepBound(s, run[0], most);
      StepKeepsInv(s, run[0]);
      FedRunBounded(Apply(s, run[0]), run[1..], most);
    }
  }

  /**
    From every reachable state whose tables have at most `most` entries, a run of the threads on their own and of
    deliveries that hit somebody, in any order, is over within the bound.
  */
  lemma FedScheduleStops(s: System, run: seq<Action>, most: nat)
    requires Reachable(s) && Legal(s, run) && FedRun(s, run) && ListsWithin(s.tables, most)
    ensures |run| <= Work(s) + Times(Credit(s), most + 9)
  {
    ReachableInv(s);
    hide Inv, Reachable, Work, Credit, Times;
    FedRunBounded(s, run, most);
  }
}
