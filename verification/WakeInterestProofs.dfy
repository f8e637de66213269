/** The steps on fds and interests keep the invariant; one lemma a step, over lemmas about the parts it changes. */
module WakeInterestProofs {
  import opened Prelude
  import opened Interests
  import opened TaskProtocol
  import opened WakeSystem
  import opened WakeInvariant
  import opened WakeProofs

  // ---------------------------------------------------------------------------------------------------------
  // Deliveries and new fds

  /** The arming of a table changes: no thread has it in its local variables. */
  lemma ArmingUnseen(tasks: seq<Task>, tables: seq<Table>, interests: seq<Interest>, ws: seq<Worker>, f: nat, d: Table)
    requires WorkersOK(tasks, tables, interests, ws) && EntriesOK(tables, interests) && ListedOK(tables, interests, ws)
    requires f < |tables| && d == tables[f].(armed := d.armed)
    ensures WorkersOK(tasks, tables[f := d], interests, ws) && EntriesOK(tables[f := d], interests)
    ensures ListedOK(tables[f := d], interests, ws)
  {
    TotalSetAll(tables, f, d, ListedCount);
  }

  lemma SameLocks(tables: seq<Table>, tables': seq<Table>, ws: seq<Worker>)
    requires LocksOK(tables, ws) && |tables| <= |tables'|
    requires forall f :: 0 <= f < |tables'| ==> tables'[f].lock == if f < |tables| then tables[f].lock else None
    ensures LocksOK(tables', ws)
  {
  }

  lemma DeliveredTables(tables: seq<Table>, ws: seq<Worker>, w: nat, k: Worker, f: nat, word: Mask)
    requires TablesOK(tables, ws) && w < |ws| && f < |tables| && ws[w].pc.Waiting?
    requires k == ws[w].(pc := Waiting(ws[w].pc.blocking, ws[w].pc.batch + [OnFd(f, word)]))
    ensures TablesOK(tables[f := tables[f].(armed := None)], ws[w := k])
  {
    BatchPush(ws[w].pc.batch, OnFd(f, word));
    TotalAtLeast(ws, w, DeliveryCount, f);
    TablesMove(tables[f := tables[f].(armed := None)], ws, w, k);
  }

  lemma KeepDeliverFd(s: System, w: nat, f: nat, word: Mask)
    requires Inv(s) && Enabled(s, DeliverFd(w, f, word))
    ensures Inv(DeliverFdStep(s, w, f, word))
  {
    hide BorrowsOK, TasksOK, TokensOK, RefsOK, SlotsOK, RunsOK, WorkersOK, ChannelOK, LinksOK, LocksOK, TablesOK, EntriesOK, ListedOK,
         InterestsOK, TellsOK, WaitsOK;
    var p, d := s.workers[w].pc, s.tables[f].(armed := None);
    var k := s.workers[w].(pc := Waiting(p.blocking, p.batch + [OnFd(f, word)]));
    BatchPush(p.batch, OnFd(f, word));
    ArmingUnseen(s.tasks, s.tables, s.interests, s.workers, f, d);
    DeliveredAllowed(s.tasks, s.tables[f := d], s.interests, s.workers, w, k, OnFd(f, word));
    SameLocks(s.tables, s.tables[f := d], s.workers);
    DeliveredTables(s.tables, s.workers, w, k, f, word);
    UncountedMove(s, w, k);
    LocksQuiet(s.tables[f := d], s.workers, w, k);
    BorrowsQuiet(s.workers, s.handles, w, k);
    ListedQuiet(s.tables[f := d], s.interests, s.workers, w, k);
    TellsQuiet(s.interests, s.workers, w, k);
  }

  /** A move that touches neither the deque nor a do_poll nor the channel. */
  lemma UncountedMove(s: System, w: nat, k: Worker)
    requires TokensOK(s.tasks, s.channel.queue, s.workers) && RefsOK(s.tasks, s.channel.queue, s.workers, s.handles)
    requires RunsOK(s.tasks, s.workers) && LinksOK(s.channel, s.workers)
    requires w < |s.workers| && k.deque == s.workers[w].deque && k.pending == s.workers[w].pending
    requires RunningTask(k.pc) == None && RunningTask(s.workers[w].pc) == None
    requires CustomCount(BatchOf(k.pc)) == CustomCount(BatchOf(s.workers[w].pc)) && k.pc.InChannel? == s.workers[w].pc.InChannel?
    ensures TokensOK(s.tasks, s.channel.queue, s.workers[w := k]) && RefsOK(s.tasks, s.channel.queue, s.workers[w := k], s.handles)
    ensures RunsOK(s.tasks, s.workers[w := k]) && LinksOK(s.channel, s.workers[w := k])
  {
    hide TokensOK, RefsOK, RunsOK, LinksOK;
    TokensMove(s.tasks, s.tasks, s.channel.queue, s.channel.queue, s.workers, w, k);
    RefsMove(s.tasks, s.tasks, s.channel.queue, s.channel.queue, s.handles, s.handles, s.workers, w, k);
    RunsQuiet(s.tasks, s.workers, w, k);
    LinksQuiet(s.channel, s.workers, w, k);
  }

  lemma NewTable(tasks: seq<Task>, tables: seq<Table>, interests: seq<Interest>, ws: seq<Worker>)
    requires WorkersOK(tasks, tables, interests, ws) && EntriesOK(tables, interests) && ListedOK(tables, interests, ws)
    requires TablesOK(tables, ws)
    ensures var tables' := tables + [Table(None, [], Some({}))];
            WorkersOK(tasks, tables', interests, ws) && EntriesOK(tables', interests) && ListedOK(tables', interests, ws)
            && TablesOK(tables', ws)
  {
    var d := Table(None, [], Some({}));
    forall iid: nat ensures Total(tables + [d], ListedCount, iid) == Total(tables, ListedCount, iid) {
      TotalPush(tables, d, ListedCount, iid);
      assert Ids(d.list) == [];
    }
  }

  lemma KeepOpenFd(s: System)
    requires Inv(s)
    ensures Inv(Apply(s, OpenFd))
  {
    hide BorrowsOK, TasksOK, TokensOK, RefsOK, SlotsOK, RunsOK, WorkersOK, ChannelOK, LinksOK, LocksOK, TablesOK, EntriesOK, ListedOK,
         InterestsOK, TellsOK, WaitsOK;
    NewTable(s.tasks, s.tables, s.interests, s.workers);
    SameLocks(s.tables, s.tables + [Table(None, [], Some({}))], s.workers);
  }

  // ---------------------------------------------------------------------------------------------------------
  // Interests, from inside a poll

  /** A task's wait set changes: no count and no thread sees it. */
  lemma WaitSetUnseen(s: System, t: nat, task: Task)
    requires t < |s.tasks| && task == s.tasks[t].(waits := task.waits)
    requires TasksOK(s.tasks) && TokensOK(s.tasks, s.channel.queue, s.workers) && RunsOK(s.tasks, s.workers)
    requires RefsOK(s.tasks, s.channel.queue, s.workers, s.handles)
    requires WorkersOK(s.tasks, s.tables, s.interests, s.workers)
    ensures TasksOK(s.tasks[t := task]) && TokensOK(s.tasks[t := task], s.channel.queue, s.workers)
    ensures RefsOK(s.tasks[t := task], s.channel.queue, s.workers, s.handles) && RunsOK(s.tasks[t := task], s.workers)
    ensures WorkersOK(s.tasks[t := task], s.tables, s.interests, s.workers)
  {
    hide TokensOK, RefsOK;
    WaitSetUncounted(s, t, task);
    hide StageOf, LoadedLevel, LevelOf, GoodLog;
  }

  lemma WaitSetUncounted(s: System, t: nat, task: Task)
    requires t < |s.tasks| && task == s.tasks[t].(waits := task.waits)
    requires TokensOK(s.tasks, s.channel.queue, s.workers) && RefsOK(s.tasks, s.channel.queue, s.workers, s.handles)
    ensures TokensOK(s.tasks[t := task], s.channel.queue, s.workers)
    ensures RefsOK(s.tasks[t := task], s.channel.queue, s.workers, s.handles)
  {
    assert forall x: nat :: Due(s.tasks[t := task], x) == Due(s.tasks, x) && StrongOf(s.tasks[t := task], x) == StrongOf(s.tasks, x);
  }

  lemma CheckedWaits(tasks: seq<Task>, t: nat, interests: seq<Interest>, moved: set<nat>, iid: nat)
    requires WaitsOK(tasks, interests, moved) && t < |tasks| && iid < |interests| && interests[iid].told == None
    ensures WaitsOK(tasks[t := tasks[t].(waits := tasks[t].waits + {iid})], interests, Stray(moved, interests, iid, t))
  {
    hide StageOf;
  }

  /** An unfired interest has told nobody. */
  lemma UnfiredIsUntold(interests: seq<Interest>, ws: seq<Worker>, iid: nat)
    requires TellsOK(interests, ws) && iid < |interests| && !interests[iid].fired
    ensures interests[iid].told == None
  {
    assert Fires(interests, iid) == Tells(interests, iid) + Total(ws, FiringCount, iid);
  }

  lemma MovedWaits(tasks: seq<Task>, interests: seq<Interest>, moved: set<nat>, moved': set<nat>)
    requires WaitsOK(tasks, interests, moved) && InterestsOK(interests, moved) && moved <= moved'
    ensures WaitsOK(tasks, interests, moved') && InterestsOK(interests, moved')
  {
    hide Stirred;
  }

  lemma KeepCheckInterest(s: System, w: nat, iid: nat)
    requires Inv(s) && Enabled(s, CheckInterest(w, iid))
    ensures Inv(CheckInterestStep(s, w, iid))
  {
    hide BorrowsOK, TasksOK, TokensOK, RefsOK, SlotsOK, RunsOK, WorkersOK, ChannelOK, LinksOK, LocksOK, TablesOK, EntriesOK, ListedOK,
         InterestsOK, TellsOK, WaitsOK;
    var t := s.workers[w].pc.task;
    MovedWaits(s.tasks, s.interests, s.moved, Stray(s.moved, s.interests, iid, t));
    if !s.interests[iid].fired {
      WaitSetUnseen(s, t, s.tasks[t].(waits := s.tasks[t].waits + {iid}));
      UnfiredIsUntold(s.interests, s.workers, iid);
      CheckedWaits(s.tasks, t, s.interests, s.moved, iid);
    }
  }

  lemma SlotChanged(s: System, iid: nat, t: nat, moved: set<nat>)
    requires iid < |s.interests| && s.moved <= moved && (iid !in moved ==> s.interests[iid].maker == t)
    requires WorkersOK(s.tasks, s.tables, s.interests, s.workers) && EntriesOK(s.tables, s.interests)
    requires ListedOK(s.tables, s.interests, s.workers) && InterestsOK(s.interests, s.moved)
    requires TellsOK(s.interests, s.workers) && WaitsOK(s.tasks, s.interests, s.moved)
    ensures var xs := s.interests[iid := s.interests[iid].(slot := t)];
            WorkersOK(s.tasks, s.tables, xs, s.workers) && EntriesOK(s.tables, xs) && ListedOK(s.tables, xs, s.workers)
            && InterestsOK(xs, moved) && TellsOK(xs, s.workers) && WaitsOK(s.tasks, xs, moved)
  {
    hide StageOf, LoadedLevel, Stirred;
    var xs := s.interests[iid := s.interests[iid].(slot := t)];
    assert forall i: nat :: Unfired(xs, i) == Unfired(s.interests, i);
    assert forall i: nat :: Fires(xs, i) == Fires(s.interests, i) && Tells(xs, i) == Tells(s.interests, i);
  }

  /** A slot passes from `was` to `t`, with a handle of `t` gained and then one of `was` dropped. */
  lemma SlotHandles(interests: seq<Interest>, handles: multiset<nat>, iid: nat, t: nat)
    requires SlotsOK(interests, handles) && iid < |interests| && !interests[iid].gone
    ensures var xs, was := interests[iid := interests[iid].(slot := t)], interests[iid].slot;
            SlotsOK(xs, AddHandle(handles, t)) && SlotsOK(xs, RemoveHandle(AddHandle(handles, t), was)) && handles[was] > 0
  {
    TotalAtLeast(interests, iid, SlotCount, interests[iid].slot);
    TotalSetAll(interests, iid, interests[iid].(slot := t), SlotCount);
  }

  lemma SlotBorrows(ws: seq<Worker>, handles: multiset<nat>, t: nat, was: nat)
    requires BorrowsOK(ws, handles) && (was == t || handles[was] > Total(ws, PendingCount, was))
    ensures BorrowsOK(ws, AddHandle(handles, t)) && BorrowsOK(ws, RemoveHandle(AddHandle(handles, t), was))
  {
  }

  lemma KeepRegisterInterest(s: System, w: nat, iid: nat)
    requires Inv(s) && Enabled(s, RegisterInterest(w, iid))
    ensures Inv(RegisterInterestStep(s, w, iid))
  {
    hide TasksOK, TokensOK, RefsOK, SlotsOK, BorrowsOK, RunsOK, WorkersOK, ChannelOK, LinksOK, LocksOK, TablesOK, EntriesOK, ListedOK,
         InterestsOK, TellsOK, WaitsOK;
    var t, was := s.workers[w].pc.task, s.interests[iid].slot;
    var moved := Stray(s.moved, s.interests, iid, t);
    SlotHandles(s.interests, s.handles, iid, t);
    SlotBorrows(s.workers, s.handles, t, was);
    KeepGainHandle(s, t);
    var s1 := GainHandle(s, t);
    SlotChanged(s1, iid, t, moved);
    var s2 := s1.(interests := s.interests[iid := s.interests[iid].(slot := t)], moved := moved);
    KeepHandleChange(s2, was, -1, RemoveHandle(s2.handles, was));
  }

  lemma AddedTables(tables: seq<Table>, ws: seq<Worker>, f: nat, mask: Mask, iid: nat)
    requires TablesOK(tables, ws) && f < |tables| && tables[f].lock == None && mask != {}
    ensures TablesOK(tables[f := Listed(tables[f], mask, iid)], ws)
  {
    UnionSnoc(tables[f].list, Entry(mask, iid));
    if mask <= Union(tables[f].list) { assert Union(tables[f].list) + mask == Union(tables[f].list); }
  }

  lemma AddedWorkers(tasks: seq<Task>, tables: seq<Table>, interests: seq<Interest>, ws: seq<Worker>, f: nat, mask: Mask, x: Interest)
    requires WorkersOK(tasks, tables, interests, ws) && f < |tables| && tables[f].lock == None
    ensures WorkersOK(tasks, tables[f := Listed(tables[f], mask, |interests|)], interests + [x], ws)
  {
    hide StageOf, LoadedLevel, Union, RearmMask;
  }

  lemma AddedEntries(tables: seq<Table>, interests: seq<Interest>, ws: seq<Worker>, f: nat, x: Interest)
    requires EntriesOK(tables, interests) && ListedOK(tables, interests, ws) && f < |tables| && x.fd == f && !x.fired
    ensures EntriesOK(tables[f := Listed(tables[f], x.mask, |interests|)], interests + [x])
    ensures ListedOK(tables[f := Listed(tables[f], x.mask, |interests|)], interests + [x], ws)
  {
    var d, n := Listed(tables[f], x.mask, |interests|), |interests|;
    TotalSetAll(tables, f, d, ListedCount);
    assert Ids(d.list) == Ids(tables[f].list) + [n];
    forall iid: nat ensures ListedCount(d, iid) == ListedCount(tables[f], iid) + One(iid == n) {
      OccurrencesPush(Ids(tables[f].list), n, iid);
    }
    assert forall iid: nat :: Unfired(interests + [x], iid) == Unfired(interests, iid) + One(iid == n);
  }

  lemma AddedWaits(tasks: seq<Task>, t: nat, interests: seq<Interest>, ws: seq<Worker>, moved: set<nat>, x: Interest)
    requires WaitsOK(tasks, interests, moved) && InterestsOK(interests, moved) && TellsOK(interests, ws) && t < |tasks|
    requires x.maker == t && x.slot == t && !x.fired && x.told == None && !x.gone
    ensures WaitsOK(tasks[t := tasks[t].(waits := tasks[t].waits + {|interests|})], interests + [x], moved)
    ensures InterestsOK(interests + [x], moved) && TellsOK(interests + [x], ws)
  {
    hide StageOf;
    assert forall i: nat :: Fires(interests + [x], i) == Fires(interests, i) && Tells(interests + [x], i) == Tells(interests, i);
  }

  lemma KeepAddInterest(s: System, w: nat, f: nat, mask: Mask)
    requires Inv(s) && Enabled(s, AddInterest(w, f, mask))
    ensures Inv(AddInterestStep(s, w, f, mask))
  {
    hide BorrowsOK, TasksOK, TokensOK, RefsOK, RunsOK, WorkersOK, ChannelOK, LinksOK, LocksOK, TablesOK, EntriesOK, ListedOK, InterestsOK, TellsOK, WaitsOK;
    var t, n := s.workers[w].pc.task, |s.interests|;
    var x := Interest(f, mask, false, t, t, None, false);
    KeepGainHandle(s, t);
    var s1 := GainHandle(s, t);
    WaitSetUnseen(s1, t, s1.tasks[t].(waits := s1.tasks[t].waits + {n}));
    AddedWorkers(s1.tasks[t := s1.tasks[t].(waits := s1.tasks[t].waits + {n})], s.tables, s.interests, s.workers, f, mask, x);
    AddedTables(s.tables, s.workers, f, mask, n);
    AddedEntries(s.tables, s.interests, s.workers, f, x);
    AddedWaits(s1.tasks, t, s.interests, s.workers, s.moved, x);
    SameLocks(s.tables, s.tables[f := Listed(s.tables[f], mask, n)], s.workers);
    forall y: nat ensures Total(s.interests + [x], SlotCount, y) == Total(s.interests, SlotCount, y) + One(t == y) {
      TotalPush(s.interests, x, SlotCount, y);
    }
    assert SlotsOK(s.interests + [x], s1.handles);
  }

  // ---------------------------------------------------------------------------------------------------------
  // The handler of an fd

  /** The lock of `f` changes hands between nobody and `w`: nobody else is in a handler of `f`. */
  lemma OthersOnTable(tasks: seq<Task>, tables: seq<Table>, interests: seq<Interest>, ws: seq<Worker>, w: nat, f: nat, d: Table)
    requires WorkersOK(tasks, tables, interests, ws) && f < |tables|
    requires tables[f].lock == None || tables[f].lock == Some(w)
    ensures forall v :: 0 <= v < |ws| && v != w ==> WorkerOK(tasks, tables[f := d], interests, v, ws[v])
  {
    hide StageOf, LoadedLevel, Union, RearmMask;
  }

  lemma LockedTables(tables: seq<Table>, ws: seq<Worker>, w: nat, k: Worker, f: nat)
    requires TablesOK(tables, ws) && w < |ws| && f < |tables| && forall g: nat :: DeliveryCount(k, g) == DeliveryCount(ws[w], g)
    ensures TablesOK(tables[f := tables[f].(lock := Some(w))], ws[w := k])
  {
    TablesQuiet(tables, ws, w, k);
  }

  lemma LockedEntries(tables: seq<Table>, interests: seq<Interest>, ws: seq<Worker>, f: nat, d: Table)
    requires EntriesOK(tables, interests) && ListedOK(tables, interests, ws) && f < |tables| && d.list == tables[f].list
    ensures EntriesOK(tables[f := d], interests) && ListedOK(tables[f := d], interests, ws)
  {
    TotalSetAll(tables, f, d, ListedCount);
  }

  lemma TakenLocks(tables: seq<Table>, ws: seq<Worker>, w: nat, k: Worker, f: nat)
    requires LocksOK(tables, ws) && w < |ws| && f < |tables| && tables[f].lock == None
    requires !HoldsLock(ws[w].pc) && HoldsLock(k.pc) && k.pc.fd == f
    ensures LocksOK(tables[f := tables[f].(lock := Some(w))], ws[w := k])
  {
  }

  lemma KeepTakeLock(s: System, w: nat)
    requires Inv(s) && Enabled(s, TakeLock(w))
    ensures Inv(TakeLockStep(s, w))
  {
    hide BorrowsOK, TasksOK, TokensOK, RefsOK, SlotsOK, RunsOK, ChannelOK, LinksOK, LocksOK, TablesOK, EntriesOK, ListedOK, InterestsOK, TellsOK, WaitsOK;
    var p := s.workers[w].pc;
    var f, d, k := p.fd, s.tables[p.fd].(lock := Some(w)), s.workers[w].(pc := Sweeping(p.fd, p.word, 0, None, p.batch));
    OthersOnTable(s.tasks, s.tables, s.interests, s.workers, w, f, d);
    assert d.list[..0] == [];
    WorkersMove(s.tasks, s.tables[f := d], s.interests, s.workers, w, k);
    UncountedMove(s, w, k);
    TakenLocks(s.tables, s.workers, w, k, f);
    BorrowsQuiet(s.workers, s.handles, w, k);
    LockedTables(s.tables, s.workers, w, k, f);
    LockedEntries(s.tables, s.interests, s.workers, f, d);
    ListedQuiet(s.tables[f := d], s.interests, s.workers, w, k);
    TellsQuiet(s.interests, s.workers, w, k);
  }

  /** A worker in the window of an interest has the lock of that interest's fd, and so has a worker that sweeps it. */
  lemma InWindow(s: System, v: nat, iid: nat)
    requires WorkersOK(s.tasks, s.tables, s.interests, s.workers) && EntriesOK(s.tables, s.interests)
    requires v < |s.workers| && WindowCount(s.workers[v], iid) > 0 && iid < |s.interests|
    ensures s.interests[iid].fd < |s.tables| && s.tables[s.interests[iid].fd].lock == Some(v)
  {
    hide StageOf, LoadedLevel, RearmMask;
    assert WorkerOK(s.tasks, s.tables, s.interests, v, s.workers[v]);
    var p := s.workers[v].pc;
    assert s.tables[p.fd].list[p.i].who == iid;
  }

  lemma Sweeper(s: System, w: nat)
    requires WorkersOK(s.tasks, s.tables, s.interests, s.workers)
    requires w < |s.workers| && s.workers[w].pc.Sweeping?
    ensures s.workers[w].pc.fd < |s.tables| && s.tables[s.workers[w].pc.fd].lock == Some(w)
  {
    hide StageOf, LoadedLevel, RearmMask;
    assert WorkerOK(s.tasks, s.tables, s.interests, w, s.workers[w]);
  }

  /** The entry under the loop index is unfired: nobody else can be in the window between firing and removing it. */
  lemma ListedIsUnfired(s: System, w: nat)
    requires WorkersOK(s.tasks, s.tables, s.interests, s.workers) && EntriesOK(s.tables, s.interests)
    requires ListedOK(s.tables, s.interests, s.workers)
    requires w < |s.workers| && s.workers[w].pc.Sweeping? && s.workers[w].pc.fd < |s.tables|
    requires s.workers[w].pc.i < |s.tables[s.workers[w].pc.fd].list|
    ensures var iid := s.tables[s.workers[w].pc.fd].list[s.workers[w].pc.i].who;
            iid < |s.interests| && !s.interests[iid].fired && Total(s.workers, WindowCount, iid) == 0
  {
    var f, i := s.workers[w].pc.fd, s.workers[w].pc.i;
    var d := s.tables[f];
    var iid := d.list[i].who;
    if Total(s.workers, WindowCount, iid) > 0 {
      hide ListedOK;
      var v := TotalWitness(s.workers, WindowCount, iid);
      InWindow(s, v, iid);
      Sweeper(s, w);
    }
    hide WorkersOK;
    assert Ids(d.list)[i] == iid;
    assert ListedCount(d, iid) > 0;
    TotalAtLeast(s.tables, f, ListedCount, iid);
  }

  lemma FiredWorkers(tasks: seq<Task>, tables: seq<Table>, interests: seq<Interest>, ws: seq<Worker>, iid: nat)
    requires WorkersOK(tasks, tables, interests, ws) && EntriesOK(tables, interests) && iid < |interests|
    ensures var xs := interests[iid := interests[iid].(fired := true)];
            WorkersOK(tasks, tables, xs, ws) && EntriesOK(tables, xs)
  {
    hide StageOf, LoadedLevel;
  }

  lemma FiredListed(tables: seq<Table>, interests: seq<Interest>, ws: seq<Worker>, w: nat, k: Worker, iid: nat)
    requires ListedOK(tables, interests, ws) && w < |ws| && iid < |interests| && !interests[iid].fired
    requires forall i: nat :: WindowCount(k, i) == WindowCount(ws[w], i) + One(i == iid)
    ensures ListedOK(tables, interests[iid := interests[iid].(fired := true)], ws[w := k])
  {
    var xs := interests[iid := interests[iid].(fired := true)];
    assert forall i: nat :: Unfired(xs, i) + One(i == iid) == Unfired(interests, i);
    ListedMove(tables, tables, interests, xs, ws, w, k);
  }

  lemma FiredWaits(tasks: seq<Task>, interests: seq<Interest>, moved: set<nat>, iid: nat)
    requires WaitsOK(tasks, interests, moved) && InterestsOK(interests, moved) && iid < |interests|
    ensures var xs := interests[iid := interests[iid].(fired := true)]; WaitsOK(tasks, xs, moved) && InterestsOK(xs, moved)
  {
    hide StageOf, Stirred;
  }

  lemma FiredTells(interests: seq<Interest>, ws: seq<Worker>, w: nat, k: Worker, iid: nat)
    requires TellsOK(interests, ws) && w < |ws| && iid < |interests| && !interests[iid].fired
    requires forall i: nat :: FiringCount(k, i) == FiringCount(ws[w], i) + One(i == iid)
    ensures TellsOK(interests[iid := interests[iid].(fired := true)], ws[w := k])
  {
    TotalSetAll(ws, w, k, FiringCount);
    var xs := interests[iid := interests[iid].(fired := true)];
    assert forall i: nat :: Fires(xs, i) == Fires(interests, i) + One(i == iid) && Tells(xs, i) == Tells(interests, i);
  }

  /** An unfired interest has not been dropped. */
  lemma UnfiredIsThere(interests: seq<Interest>, moved: set<nat>, iid: nat)
    requires InterestsOK(interests, moved) && iid < |interests| && !interests[iid].fired
    ensures !interests[iid].gone
  {
  }

  lemma FiredSlots(interests: seq<Interest>, handles: multiset<nat>, iid: nat)
    requires SlotsOK(interests, handles) && iid < |interests|
    ensures SlotsOK(interests[iid := interests[iid].(fired := true)], handles)
  {
    TotalSetAll(interests, iid, interests[iid].(fired := true), SlotCount);
  }

  lemma KeepSweepFire(s: System, w: nat)
    requires Inv(s) && Enabled(s, SweepNext(w))
    requires var p := s.workers[w].pc; p.i < |s.tables[p.fd].list| && Hit(s.tables[p.fd].list[p.i].mask, p.word)
    ensures Inv(SweepStep(s, w))
  {
    hide BorrowsOK, TasksOK, TokensOK, RefsOK, SlotsOK, RunsOK, ChannelOK, LinksOK, LocksOK, TablesOK, EntriesOK, ListedOK, InterestsOK, TellsOK, WaitsOK;
    var p := s.workers[w].pc;
    var iid := s.tables[p.fd].list[p.i].who;
    var k := s.workers[w].(pc := AtFire(p.fd, p.word, p.i, p.rem, iid, p.batch));
    var xs := s.interests[iid := s.interests[iid].(fired := true)];
    assert WorkerOK(s.tasks, s.tables, s.interests, w, s.workers[w]);
    ListedIsUnfired(s, w);
    UnfiredIsThere(s.interests, s.moved, iid);
    FiredWorkers(s.tasks, s.tables, s.interests, s.workers, iid);
    WorkersMove(s.tasks, s.tables, xs, s.workers, w, k);
    UncountedMove(s, w, k);
    LocksQuiet(s.tables, s.workers, w, k);
    BorrowsQuiet(s.workers, s.handles, w, k);
    TablesQuiet(s.tables, s.workers, w, k);
    FiredListed(s.tables, s.interests, s.workers, w, k, iid);
    FiredWaits(s.tasks, s.interests, s.moved, iid);
    FiredTells(s.interests, s.workers, w, k, iid);
    FiredSlots(s.interests, s.handles, iid);
  }

  lemma KeepSweepPass(s: System, w: nat)
    requires Inv(s) && Enabled(s, SweepNext(w))
    requires var p := s.workers[w].pc; p.i < |s.tables[p.fd].list| && !Hit(s.tables[p.fd].list[p.i].mask, p.word)
    ensures Inv(SweepStep(s, w))
  {
    hide BorrowsOK, TasksOK, TokensOK, RefsOK, SlotsOK, RunsOK, ChannelOK, LinksOK, LocksOK, TablesOK, EntriesOK, ListedOK, InterestsOK, TellsOK, WaitsOK,
         RearmMask;
    var p := s.workers[w].pc;
    var d := s.tables[p.fd];
    var k := SweepStep(s, w).workers[w];
    assert WorkerOK(s.tasks, s.tables, s.interests, w, s.workers[w]);
    RearmSnoc(d.list[..p.i], d.list[p.i]);
    assert d.list[..p.i + 1] == d.list[..p.i] + [d.list[p.i]];
    WorkersMove(s.tasks, s.tables, s.interests, s.workers, w, k);
    UncountedMove(s, w, k);
    LocksQuiet(s.tables, s.workers, w, k);
    BorrowsQuiet(s.workers, s.handles, w, k);
    TablesQuiet(s.tables, s.workers, w, k);
    ListedQuiet(s.tables, s.interests, s.workers, w, k);
    TellsQuiet(s.interests, s.workers, w, k);
  }

  lemma ReleasedLocks(tables: seq<Table>, ws: seq<Worker>, w: nat, k: Worker, f: nat, d: Table)
    requires LocksOK(tables, ws) && w < |ws| && f < |tables| && d.lock == None
    requires HoldsLock(ws[w].pc) && ws[w].pc.fd == f
    ensures LocksOK(tables[f := d], ws[w := k])
  {
  }

  lemma ReleasedTables(tables: seq<Table>, ws: seq<Worker>, w: nat, k: Worker, f: nat, rem: Option<Mask>)
    requires TablesOK(tables, ws) && w < |ws| && f < |tables| && rem == RearmMask(tables[f].list)
    requires forall g: nat :: DeliveryCount(k, g) + One(g == f) == DeliveryCount(ws[w], g)
    ensures TablesOK(tables[f := tables[f].(lock := None, armed := if rem.Some? then rem else tables[f].armed)], ws[w := k])
  {
    TablesMove(tables[f := tables[f].(lock := None, armed := if rem.Some? then rem else tables[f].armed)], ws, w, k);
  }

  lemma KeepSweepEnd(s: System, w: nat)
    requires Inv(s) && Enabled(s, SweepNext(w)) && s.workers[w].pc.i >= |s.tables[s.workers[w].pc.fd].list|
    ensures Inv(SweepStep(s, w))
  {
    hide BorrowsOK, TasksOK, TokensOK, RefsOK, SlotsOK, RunsOK, ChannelOK, LinksOK, LocksOK, TablesOK, EntriesOK, ListedOK, InterestsOK, TellsOK, WaitsOK;
    var p := s.workers[w].pc;
    var f, d, k := p.fd, s.tables[p.fd], s.workers[w].(pc := Dispatching(p.batch));
    var d' := d.(lock := None, armed := if p.rem.Some? then p.rem else d.armed);
    assert WorkerOK(s.tasks, s.tables, s.interests, w, s.workers[w]);
    assert d.list[..p.i] == d.list;
    OthersOnTable(s.tasks, s.tables, s.interests, s.workers, w, f, d');
    WorkersMove(s.tasks, s.tables[f := d'], s.interests, s.workers, w, k);
    UncountedMove(s, w, k);
    ReleasedLocks(s.tables, s.workers, w, k, f, d');
    BorrowsQuiet(s.workers, s.handles, w, k);
    ReleasedTables(s.tables, s.workers, w, k, f, p.rem);
    LockedEntries(s.tables, s.interests, s.workers, f, d');
    ListedQuiet(s.tables[f := d'], s.interests, s.workers, w, k);
    TellsQuiet(s.interests, s.workers, w, k);
  }

  /** The notify is done: the task it went to will poll again if it waits on the interest. */
  lemma ToldWaits(tasks: seq<Task>, interests: seq<Interest>, moved: set<nat>, iid: nat)
    requires WaitsOK(tasks, interests, moved) && InterestsOK(interests, moved)
    requires iid < |interests| && interests[iid].slot < |tasks| && Stirred(tasks[interests[iid].slot])
    ensures WaitsOK(tasks, Told(interests, iid), moved) && InterestsOK(Told(interests, iid), moved)
  {
    hide Stirred;
  }

  /** The interests after `iid` has notified the task in its slot. */
  function Told(interests: seq<Interest>, iid: nat): seq<Interest>
    requires iid < |interests|
  {
    interests[iid := interests[iid].(told := Some(interests[iid].slot))]
  }

  lemma ToldTells(interests: seq<Interest>, ws: seq<Worker>, w: nat, k: Worker, iid: nat)
    requires TellsOK(interests, ws) && w < |ws| && iid < |interests|
    requires forall i: nat :: FiringCount(k, i) + One(i == iid) == FiringCount(ws[w], i)
    ensures TellsOK(Told(interests, iid), ws[w := k])
  {
    TotalSetAll(ws, w, k, FiringCount);
    TotalAtLeast(ws, w, FiringCount, iid);
    var xs := Told(interests, iid);
    assert Fires(interests, iid) == Tells(interests, iid) + Total(ws, FiringCount, iid);
    assert forall i: nat :: Fires(xs, i) == Fires(interests, i) && Tells(xs, i) == Tells(interests, i) + One(i == iid);
  }

  lemma ToldSeen(tasks: seq<Task>, tables: seq<Table>, interests: seq<Interest>, ws: seq<Worker>, handles: multiset<nat>, iid: nat)
    requires WorkersOK(tasks, tables, interests, ws) && EntriesOK(tables, interests) && SlotsOK(interests, handles)
    requires ListedOK(tables, interests, ws) && iid < |interests|
    ensures var xs := Told(interests, iid);
            WorkersOK(tasks, tables, xs, ws) && EntriesOK(tables, xs) && SlotsOK(xs, handles) && ListedOK(tables, xs, ws)
  {
    hide StageOf, LoadedLevel, RearmMask;
    var xs := Told(interests, iid);
    TotalSetAll(interests, iid, xs[iid], SlotCount);
    assert forall i: nat :: Unfired(xs, i) == Unfired(interests, i);
  }

  /** From stored and notified to about to be removed: the second half of FireNotify. */
  lemma KeepFired(s: System, w: nat)
    requires Inv(s) && w < |s.workers| && s.workers[w].pc.AtFire? && s.workers[w].pc.iid < |s.interests|
    requires s.interests[s.workers[w].pc.iid].slot < |s.tasks| && Stirred(s.tasks[s.interests[s.workers[w].pc.iid].slot])
    ensures var p := s.workers[w].pc;
            Inv(Go(s, w, AtRemove(p.fd, p.word, p.i, p.rem, p.iid, p.batch)).(interests := Told(s.interests, p.iid)))
  {
    hide BorrowsOK, TasksOK, TokensOK, RefsOK, SlotsOK, RunsOK, ChannelOK, LinksOK, LocksOK, TablesOK, EntriesOK, ListedOK, InterestsOK,
         TellsOK, WaitsOK, Stirred, Told;
    var p := s.workers[w].pc;
    var k := s.workers[w].(pc := AtRemove(p.fd, p.word, p.i, p.rem, p.iid, p.batch));
    assert WorkerOK(s.tasks, s.tables, s.interests, w, s.workers[w]);
    WorkersMove(s.tasks, s.tables, s.interests, s.workers, w, k);
    UncountedMove(s, w, k);
    LocksQuiet(s.tables, s.workers, w, k);
    BorrowsQuiet(s.workers, s.handles, w, k);
    TablesQuiet(s.tables, s.workers, w, k);
    ListedQuiet(s.tables, s.interests, s.workers, w, k);
    ToldTells(s.interests, s.workers, w, k, p.iid);
    ToldWaits(s.tasks, s.interests, s.moved, p.iid);
    hide WorkersOK;
    ToldSeen(s.tasks, s.tables, s.interests, s.workers[w := k], s.handles, p.iid);
  }

  lemma SlotHasHandle(s: System, iid: nat)
    requires SlotsOK(s.interests, s.handles) && iid < |s.interests| && !s.interests[iid].gone
    ensures s.handles[s.interests[iid].slot] > 0
  {
    TotalAtLeast(s.interests, iid, SlotCount, s.interests[iid].slot);
  }

  /** The interest a handler is firing is there. */
  lemma FiringIsThere(s: System, w: nat)
    requires WorkersOK(s.tasks, s.tables, s.interests, s.workers) && w < |s.workers| && s.workers[w].pc.AtFire?
    ensures s.workers[w].pc.iid < |s.interests| && !s.interests[s.workers[w].pc.iid].gone
  {
    hide StageOf, LoadedLevel, RearmMask;
    assert WorkerOK(s.tasks, s.tables, s.interests, w, s.workers[w]);
  }

  lemma KeepFireNotify(s: System, w: nat)
    requires Inv(s) && Enabled(s, FireNotify(w))
    ensures Inv(FireNotifyStep(s, w))
  {
    var t := s.interests[s.workers[w].pc.iid].slot;
    assert TaskInv(s.tasks[t]);
    FiringIsThere(s, w);
    SlotHasHandle(s, s.workers[w].pc.iid);
    hide Inv, TaskInv, Stirred;
    KeepNotifyBy(s, w, t);
    NotifiedStirs(s.tasks[t]);
    KeepFired(NotifyBy(s, w, t), w);
  }

  lemma RemovedIds(d: Table, i: nat)
    requires i < |d.list|
    ensures forall x: nat ::
              ListedCount(d.(list := SwapRemove(d.list, i)), x) + One(x == d.list[i].who) == ListedCount(d, x)
  {
    var ids := Ids(d.list);
    assert Ids(SwapRemove(d.list, i)) == SwapRemove(ids, i);
    SwapRemoveDropsOne(ids, i);
    assert multiset(ids) == multiset(SwapRemove(ids, i)) + multiset{d.list[i].who} by { assert ids[i] in multiset(ids); }
  }

  lemma RemovedListed(tables: seq<Table>, interests: seq<Interest>, ws: seq<Worker>, w: nat, k: Worker, f: nat, i: nat)
    requires ListedOK(tables, interests, ws) && w < |ws| && f < |tables| && i < |tables[f].list|
    requires forall x: nat :: WindowCount(k, x) + One(x == tables[f].list[i].who) == WindowCount(ws[w], x)
    ensures ListedOK(tables[f := tables[f].(list := SwapRemove(tables[f].list, i))], interests, ws[w := k])
  {
    hide ListedOK;
    var d := tables[f].(list := SwapRemove(tables[f].list, i));
    RemovedIds(tables[f], i);
    TotalSetAll(tables, f, d, ListedCount);
    ListedMove(tables, tables[f := d], interests, interests, ws, w, k);
  }

  lemma RemovedEntries(tables: seq<Table>, interests: seq<Interest>, f: nat, i: nat)
    requires EntriesOK(tables, interests) && f < |tables| && i < |tables[f].list|
    ensures EntriesOK(tables[f := tables[f].(list := SwapRemove(tables[f].list, i))], interests)
  {
    var list := tables[f].list;
    assert forall n :: 0 <= n < |list| - 1 ==> SwapRemove(list, i)[n] == if n == i then list[|list| - 1] else list[n];
  }

  lemma RemovedTables(tables: seq<Table>, ws: seq<Worker>, w: nat, k: Worker, f: nat, d: Table)
    requires TablesOK(tables, ws) && w < |ws| && f < |tables| && d.lock != None
    requires forall g: nat :: DeliveryCount(k, g) == DeliveryCount(ws[w], g)
    ensures TablesOK(tables[f := d], ws[w := k])
  {
    TablesQuiet(tables, ws, w, k);
  }

  lemma KeepRemoveFired(s: System, w: nat)
    requires Inv(s) && Enabled(s, RemoveFired(w))
    ensures Inv(RemoveFiredStep(s, w))
  {
    hide BorrowsOK, TasksOK, TokensOK, RefsOK, SlotsOK, RunsOK, ChannelOK, LinksOK, LocksOK, TablesOK, EntriesOK, ListedOK, InterestsOK, TellsOK, WaitsOK;
    var p := s.workers[w].pc;
    var f, k := p.fd, s.workers[w].(pc := Sweeping(p.fd, p.word, p.i, p.rem, p.batch));
    var d := s.tables[f].(list := SwapRemove(s.tables[f].list, p.i));
    assert WorkerOK(s.tasks, s.tables, s.interests, w, s.workers[w]);
    OthersOnTable(s.tasks, s.tables, s.interests, s.workers, w, f, d);
    WorkersMove(s.tasks, s.tables[f := d], s.interests, s.workers, w, k);
    UncountedMove(s, w, k);
    SameLocks(s.tables, s.tables[f := d], s.workers);
    LocksQuiet(s.tables[f := d], s.workers, w, k);
    BorrowsQuiet(s.workers, s.handles, w, k);
    RemovedTables(s.tables, s.workers, w, k, f, d);
    RemovedEntries(s.tables, s.interests, f, p.i);
    RemovedListed(s.tables, s.interests, s.workers, w, k, f, p.i);
    TellsQuiet(s.interests, s.workers, w, k);
  }

  // ---------------------------------------------------------------------------------------------------------
  // The last reference to an interest

  lemma GoneSeen(s: System, iid: nat)
    requires iid < |s.interests| && s.interests[iid].fired && Total(s.workers, WindowCount, iid) == 0
    requires WorkersOK(s.tasks, s.tables, s.interests, s.workers) && EntriesOK(s.tables, s.interests)
    ensures var xs := s.interests[iid := s.interests[iid].(gone := true)];
            WorkersOK(s.tasks, s.tables, xs, s.workers) && EntriesOK(s.tables, xs)
  {
    hide StageOf, LoadedLevel, RearmMask, EntriesOK;
    forall v | 0 <= v < |s.workers| ensures WindowCount(s.workers[v], iid) == 0 { TotalAtLeast(s.workers, v, WindowCount, iid); }
    assert EntriesOK(s.tables, s.interests[iid := s.interests[iid].(gone := true)]) by { GoneEntries(s, iid); }
  }

  lemma GoneEntries(s: System, iid: nat)
    requires iid < |s.interests| && EntriesOK(s.tables, s.interests)
    ensures EntriesOK(s.tables, s.interests[iid := s.interests[iid].(gone := true)])
  {
  }

  lemma GoneKept(s: System, iid: nat)
    requires iid < |s.interests| && s.interests[iid].fired
    requires ListedOK(s.tables, s.interests, s.workers) && InterestsOK(s.interests, s.moved)
    requires TellsOK(s.interests, s.workers) && WaitsOK(s.tasks, s.interests, s.moved)
    ensures var xs := s.interests[iid := s.interests[iid].(gone := true)];
            ListedOK(s.tables, xs, s.workers) && InterestsOK(xs, s.moved) && TellsOK(xs, s.workers) && WaitsOK(s.tasks, xs, s.moved)
  {
    hide Stirred;
    var xs := s.interests[iid := s.interests[iid].(gone := true)];
    assert forall i: nat :: Unfired(xs, i) == Unfired(s.interests, i) && Fires(xs, i) == Fires(s.interests, i) && Tells(xs, i) == Tells(s.interests, i);
  }

  lemma GoneHandles(interests: seq<Interest>, ws: seq<Worker>, handles: multiset<nat>, iid: nat)
    requires SlotsOK(interests, handles) && BorrowsOK(ws, handles) && iid < |interests| && !interests[iid].gone
    requires handles[interests[iid].slot] > Total(ws, PendingCount, interests[iid].slot)
    ensures var xs, handles' := interests[iid := interests[iid].(gone := true)], RemoveHandle(handles, interests[iid].slot);
            SlotsOK(xs, handles) && SlotsOK(xs, handles') && BorrowsOK(ws, handles')
  {
    TotalAtLeast(interests, iid, SlotCount, interests[iid].slot);
    TotalSetAll(interests, iid, interests[iid].(gone := true), SlotCount);
  }

  lemma KeepDropInterest(s: System, iid: nat)
    requires Inv(s) && Enabled(s, DropInterest(iid))
    ensures Inv(DropInterestStep(s, iid))
  {
    hide TasksOK, TokensOK, RefsOK, SlotsOK, BorrowsOK, RunsOK, WorkersOK, ChannelOK, LinksOK, LocksOK, TablesOK, EntriesOK, ListedOK,
         InterestsOK, TellsOK, WaitsOK;
    var t := s.interests[iid].slot;
    GoneSeen(s, iid);
    GoneKept(s, iid);
    GoneHandles(s.interests, s.workers, s.handles, iid);
    KeepHandleChange(s.(interests := s.interests[iid := s.interests[iid].(gone := true)]), t, -1, RemoveHandle(s.handles, t));
  }
}
