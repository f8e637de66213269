/** What every step of the composed system keeps: the statement, and how it survives changes of one worker. */
module WakeInvariant {
  import opened Prelude
  import opened Interests
  import opened TaskProtocol
  import opened WakeSystem
  import Ch = CustomEvents

  ghost predicate TasksOK(tasks: seq<Task>) { forall t :: 0 <= t < |tasks| ==> TaskInv(tasks[t]) }

  /** The run tokens an unfinished task is due: one above level 0, none at level 0. */
  function Due(tasks: seq<Task>, t: nat): nat { One(t < |tasks| && !tasks[t].done && tasks[t].level > 0) }

  /** Single token: channel entries, deque entries, active do_polls and unpushed notifies add up to what is due. */
  ghost predicate TokensOK(tasks: seq<Task>, queue: seq<nat>, workers: seq<Worker>)
  {
    forall t: nat :: Total(workers, TokenCount, t) + Occurrences(queue, t) == Due(tasks, t)
  }

  function StrongOf(tasks: seq<Task>, t: nat): int { if t < |tasks| then tasks[t].strong else 0 }

  /** Reference conservation: raw pointers in the channel, deque entries, active do_polls and handles. */
  ghost predicate RefsOK(tasks: seq<Task>, queue: seq<nat>, workers: seq<Worker>, handles: multiset<nat>)
  {
    forall t: nat :: Total(workers, RefCount, t) + Occurrences(queue, t) + handles[t] == StrongOf(tasks, t)
  }

  /** Interest slots hold handles. */
  ghost predicate SlotsOK(interests: seq<Interest>, handles: multiset<nat>)
  {
    forall t: nat :: Total(interests, SlotCount, t) <= handles[t]
  }

  /** A notify in progress was called through a handle that is still there. */
  ghost predicate BorrowsOK(workers: seq<Worker>, handles: multiset<nat>)
  {
    forall t: nat :: Total(workers, PendingCount, t) <= handles[t]
  }

  /** A task whose log is inside do_poll is in the do_poll of some worker. */
  ghost predicate RunsOK(tasks: seq<Task>, workers: seq<Worker>)
  {
    forall t: nat :: t < |tasks| && InDoPoll(StageOf(tasks[t].log)) ==> Total(workers, RunCount, t) > 0
  }

  ghost predicate BatchOK(batch: seq<Delivery>, n: nat) { forall d :: d in batch && d.OnFd? ==> d.fd < n }

  ghost predicate SweepOK(d: Table, v: nat, i: nat, rem: Option<Mask>)
  {
    d.lock == Some(v) && i <= |d.list| && rem == RearmMask(d.list[..i])
  }

  ghost predicate FiredAt(d: Table, i: nat, iid: InterestId, interests: seq<Interest>)
  {
    i < |d.list| && d.list[i].who == iid && iid < |interests| && interests[iid].fired && !interests[iid].gone
  }

  /** The local variables of worker `v` agree with the shared state. */
  ghost predicate WorkerOK(tasks: seq<Task>, tables: seq<Table>, interests: seq<Interest>, v: nat, k: Worker)
  {
    && (k.pending.Some? ==> RunsUserCode(k.pc) || k.pc.AtFire? || k.pc.AtRemove?)
    && BatchOK(BatchOf(k.pc), |tables|)
    && match k.pc
       case AtLoad(t) => t < |tasks| && !InDoPoll(StageOf(tasks[t].log))
       case AtBegin(t, seen) => t < |tasks| && StageOf(tasks[t].log) == Read && seen == LoadedLevel(tasks[t].log)
       case InPoll(t, seen) => t < |tasks| && StageOf(tasks[t].log) == Polling && seen == LoadedLevel(tasks[t].log)
       case AtSwap(t, seen) => t < |tasks| && StageOf(tasks[t].log) == Polled && seen == LoadedLevel(tasks[t].log)
       case Waiting(blocking, _) => blocking ==> k.deque == []
       case AtLock(f, _, _) => f < |tables|
       case Sweeping(f, _, i, rem, _) => f < |tables| && SweepOK(tables[f], v, i, rem)
       case AtFire(f, _, i, rem, iid, _) =>
         f < |tables| && SweepOK(tables[f], v, i, rem) && FiredAt(tables[f], i, iid, interests)
       case AtRemove(f, _, i, rem, iid, _) =>
         f < |tables| && SweepOK(tables[f], v, i, rem) && FiredAt(tables[f], i, iid, interests)
       case _ => true
  }

  ghost predicate WorkersOK(tasks: seq<Task>, tables: seq<Table>, interests: seq<Interest>, workers: seq<Worker>)
  {
    forall v :: 0 <= v < |workers| ==> WorkerOK(tasks, tables, interests, v, workers[v])
  }

  /** The channel's own invariant; what was pushed are the spawned tasks in spawn order. */
  ghost predicate ChannelOK(c: Ch.Chan, spawned: nat)
  {
    && Ch.Inv(c) && c.phase == Ch.Published
    && |c.pushed| == spawned && forall i :: 0 <= i < spawned ==> c.pushed[i] == i
  }

  /** A worker has a channel delivery in its batch, or is in the channel handler, exactly when the channel says so. */
  ghost predicate LinkOK(c: Ch.Chan, v: nat, k: Worker)
  {
    && CustomCount(BatchOf(k.pc)) + One(k.pc.InChannel?) == One(v in c.handlers)
    && (v in c.handlers && !k.pc.InChannel? ==> c.handlers[v] == Ch.ToRead)
  }

  ghost predicate LinksOK(c: Ch.Chan, workers: seq<Worker>)
  {
    && (forall v :: 0 <= v < |workers| ==> LinkOK(c, v, workers[v]))
    && (forall v :: v in c.handlers ==> v < |workers|)
  }

  predicate Holds(workers: seq<Worker>, v: nat, f: nat) { v < |workers| && HoldsLock(workers[v].pc) && workers[v].pc.fd == f }

  /** A locked table is locked by a worker in its handler. */
  ghost predicate LocksOK(tables: seq<Table>, workers: seq<Worker>)
  {
    forall f :: 0 <= f < |tables| && tables[f].lock.Some? ==> Holds(workers, tables[f].lock.value, f)
  }

  /** Armed-mask agreement of one table; `coming` are the deliveries for it not yet completely handled. */
  ghost predicate ArmedOK(d: Table, coming: int)
  {
    d.lock == None && d.list != [] ==> d.armed == Some(Union(d.list)) || (d.armed == None && coming > 0)
  }

  ghost predicate TablesOK(tables: seq<Table>, workers: seq<Worker>)
  {
    forall f: nat :: f < |tables| ==> ArmedOK(tables[f], Total(workers, DeliveryCount, f))
  }

  /** Table entries are the interests of that fd, with their masks. */
  ghost predicate EntriesOK(tables: seq<Table>, interests: seq<Interest>)
  {
    forall f, k :: 0 <= f < |tables| && 0 <= k < |tables[f].list| ==>
      var e := tables[f].list[k];
      e.who < |interests| && interests[e.who].fd == f && interests[e.who].mask == e.mask
  }

  function Unfired(interests: seq<Interest>, iid: nat): nat { One(iid < |interests| && !interests[iid].fired) }

  /** Life cycle: an interest is listed, once, while it is unfired and until its handler removes it. */
  ghost predicate ListedOK(tables: seq<Table>, interests: seq<Interest>, workers: seq<Worker>)
  {
    forall iid: nat :: Total(tables, ListedCount, iid) == Unfired(interests, iid) + Total(workers, WindowCount, iid)
  }

  /** An interest that stayed with its maker has its maker in the slot and told no other; a dropped one has fired. */
  ghost predicate InterestsOK(interests: seq<Interest>, moved: set<nat>)
  {
    forall iid :: 0 <= iid < |interests| ==>
      var x := interests[iid];
      && (iid !in moved ==> x.slot == x.maker && (x.told.Some? ==> x.told.value == x.maker))
      && (x.gone ==> x.fired)
  }

  function Fires(interests: seq<Interest>, iid: nat): nat { One(iid < |interests| && interests[iid].fired) }
  function Tells(interests: seq<Interest>, iid: nat): nat { One(iid < |interests| && interests[iid].told.Some?) }

  /** An interest that has fired has told its task, or a handler is between the two. */
  ghost predicate TellsOK(interests: seq<Interest>, workers: seq<Worker>)
  {
    forall iid: nat :: Fires(interests, iid) == Tells(interests, iid) + Total(workers, FiringCount, iid)
  }

  /** The task is finished, or will poll again: it has a token and a notify newer than the level it would swap out. */
  ghost predicate Stirred(k: Task)
  {
    || k.done
    || (k.level > 0 && (StageOf(k.log) == Polling || StageOf(k.log) == Polled ==> NotifiesSinceLoad(k.log) > 0))
  }

  /** The task an interest told after that task's latest look at it will poll again. */
  ghost predicate WaitOK(k: Task, t: nat, interests: seq<Interest>, moved: set<nat>, iid: nat)
  {
    && iid < |interests|
    && (iid !in moved ==> interests[iid].maker == t)
    && (interests[iid].told == Some(t) ==> Stirred(k))
  }

  ghost predicate WaitsOK(tasks: seq<Task>, interests: seq<Interest>, moved: set<nat>)
  {
    forall t, iid :: 0 <= t < |tasks| && iid in tasks[t].waits ==> WaitOK(tasks[t], t, interests, moved, iid)
  }

  ghost predicate Inv(s: System)
  {
    && TasksOK(s.tasks)
    && TokensOK(s.tasks, s.channel.queue, s.workers)
    && RefsOK(s.tasks, s.channel.queue, s.workers, s.handles)
    && SlotsOK(s.interests, s.handles)
    && BorrowsOK(s.workers, s.handles)
    && RunsOK(s.tasks, s.workers)
    && WorkersOK(s.tasks, s.tables, s.interests, s.workers)
    && ChannelOK(s.channel, |s.tasks|)
    && LinksOK(s.channel, s.workers)
    && LocksOK(s.tables, s.workers)
    && TablesOK(s.tables, s.workers)
    && EntriesOK(s.tables, s.interests)
    && ListedOK(s.tables, s.interests, s.workers)
    && InterestsOK(s.interests, s.moved)
    && TellsOK(s.interests, s.workers)
    && WaitsOK(s.tasks, s.interests, s.moved)
  }

  // ---------------------------------------------------------------------------------------------------------
  // The start

  lemma {:induction false} NothingHeld(n: nat, t: nat)
    ensures var ws := seq(n, _ => Worker(AtTop, [], None));
            && Total(ws, TokenCount, t) == 0 && Total(ws, RefCount, t) == 0
            && Total(ws, WindowCount, t) == 0 && Total(ws, PendingCount, t) == 0 && Total(ws, FiringCount, t) == 0
  {
    var ws := seq(n, _ => Worker(AtTop, [], None));
    if n > 0 {
      NothingHeld(n - 1, t);
      assert ws[..n - 1] == seq(n - 1, _ => Worker(AtTop, [], None));
    }
  }

  /** Nothing has been spawned or opened, and no worker holds anything. */
  ghost predicate Fresh(s: System)
  {
    && s.tasks == [] && s.tables == [] && s.interests == [] && s.handles == multiset{} && s.moved == {}
    && s.channel == Ch.OPEN_CHANNEL
    && (forall v :: 0 <= v < |s.workers| ==> s.workers[v] == Worker(AtTop, [], None))
    && (forall t: nat :: Total(s.workers, TokenCount, t) == 0 && Total(s.workers, RefCount, t) == 0
                         && Total(s.workers, WindowCount, t) == 0 && Total(s.workers, PendingCount, t) == 0
                         && Total(s.workers, FiringCount, t) == 0)
  }

  lemma OpenChannel(c: Ch.Chan)
    requires c == Ch.OPEN_CHANNEL
    ensures ChannelOK(c, 0)
  {
    assert !Ch.SomeAt(c, Ch.ToRead);
  }

  lemma FreshCounts(s: System)
    requires Fresh(s)
    ensures TokensOK(s.tasks, s.channel.queue, s.workers) && RefsOK(s.tasks, s.channel.queue, s.workers, s.handles)
    ensures ListedOK(s.tables, s.interests, s.workers) && BorrowsOK(s.workers, s.handles) && TellsOK(s.interests, s.workers)
  {
  }

  lemma FreshWorkers(s: System)
    requires Fresh(s)
    ensures WorkersOK(s.tasks, s.tables, s.interests, s.workers)
    ensures LinksOK(s.channel, s.workers)
  {
  }

  lemma NoTables(s: System)
    requires s.tables == [] && s.interests == [] && s.tasks == []
    ensures LocksOK(s.tables, s.workers) && TablesOK(s.tables, s.workers) && EntriesOK(s.tables, s.interests)
    ensures TasksOK(s.tasks) && RunsOK(s.tasks, s.workers) && WaitsOK(s.tasks, s.interests, s.moved)
    ensures SlotsOK(s.interests, s.handles)
  {
  }

  lemma FreshInv(s: System)
    requires Fresh(s)
    ensures Inv(s)
  {
    OpenChannel(s.channel);
    FreshCounts(s);
    FreshWorkers(s);
    NoTables(s);
    hide ChannelOK, TokensOK, RefsOK, ListedOK, WorkersOK, LinksOK, LocksOK, TablesOK, EntriesOK, TasksOK, RunsOK, TellsOK, WaitsOK,
         SlotsOK, BorrowsOK;
  }

  lemma InitInv(n: nat)
    ensures Inv(Init(n))
  {
    forall t: nat
      ensures Total(Init(n).workers, TokenCount, t) == 0 && Total(Init(n).workers, RefCount, t) == 0
              && Total(Init(n).workers, WindowCount, t) == 0 && Total(Init(n).workers, PendingCount, t) == 0
              && Total(Init(n).workers, FiringCount, t) == 0
    {
      NothingHeld(n, t);
    }
    FreshInv(Init(n));
  }

  // ---------------------------------------------------------------------------------------------------------
  // How each part survives when worker `w` becomes `k` and the shared state changes with it

  /** Tokens owed and held move together. */
  ghost predicate TokenShift(tasks: seq<Task>, tasks': seq<Task>, queue: seq<nat>, queue': seq<nat>, j: Worker, k: Worker)
  {
    forall t: nat :: Due(tasks', t) + TokenCount(j, t) + Occurrences(queue, t)
                     == Due(tasks, t) + TokenCount(k, t) + Occurrences(queue', t)
  }

  lemma TokensMove(tasks: seq<Task>, tasks': seq<Task>, queue: seq<nat>, queue': seq<nat>, ws: seq<Worker>, w: nat, k: Worker)
    requires TokensOK(tasks, queue, ws) && w < |ws| && TokenShift(tasks, tasks', queue, queue', ws[w], k)
    ensures TokensOK(tasks', queue', ws[w := k])
  {
    TotalSetAll(ws, w, k, TokenCount);
  }

  ghost predicate RefShift(tasks: seq<Task>, tasks': seq<Task>, queue: seq<nat>, queue': seq<nat>,
                           handles: multiset<nat>, handles': multiset<nat>, j: Worker, k: Worker)
  {
    forall t: nat :: StrongOf(tasks', t) + RefCount(j, t) + Occurrences(queue, t) + handles[t]
                     == StrongOf(tasks, t) + RefCount(k, t) + Occurrences(queue', t) + handles'[t]
  }

  lemma RefsMove(tasks: seq<Task>, tasks': seq<Task>, queue: seq<nat>, queue': seq<nat>,
                 handles: multiset<nat>, handles': multiset<nat>, ws: seq<Worker>, w: nat, k: Worker)
    requires RefsOK(tasks, queue, ws, handles) && w < |ws|
    requires RefShift(tasks, tasks', queue, queue', handles, handles', ws[w], k)
    ensures RefsOK(tasks', queue', ws[w := k], handles')
  {
    TotalSetAll(ws, w, k, RefCount);
  }

  /** Tasks inside do_poll were there, or are entered by this worker; none is left behind. */
  ghost predicate RunShift(tasks: seq<Task>, tasks': seq<Task>, j: Worker, k: Worker)
  {
    forall t: nat :: t < |tasks'| && InDoPoll(StageOf(tasks'[t].log)) ==>
      RunCount(k, t) > 0 || (t < |tasks| && InDoPoll(StageOf(tasks[t].log)) && RunCount(j, t) == 0)
  }

  lemma RunsMove(tasks: seq<Task>, tasks': seq<Task>, ws: seq<Worker>, w: nat, k: Worker)
    requires RunsOK(tasks, ws) && w < |ws| && RunShift(tasks, tasks', ws[w], k)
    ensures RunsOK(tasks', ws[w := k])
  {
    TotalSetAll(ws, w, k, RunCount);
    forall t: nat | RunCount(k, t) > 0 ensures Total(ws[w := k], RunCount, t) > 0 {
      TotalAtLeast(ws[w := k], w, RunCount, t);
    }
  }

  lemma WorkersMove(tasks': seq<Task>, tables': seq<Table>, interests': seq<Interest>, ws: seq<Worker>, w: nat, k: Worker)
    requires w < |ws| && WorkerOK(tasks', tables', interests', w, k)
    requires forall v :: 0 <= v < |ws| && v != w ==> WorkerOK(tasks', tables', interests', v, ws[v])
    ensures WorkersOK(tasks', tables', interests', ws[w := k])
  {
  }

  lemma LinksMove(c: Ch.Chan, c': Ch.Chan, ws: seq<Worker>, w: nat, k: Worker)
    requires LinksOK(c, ws) && w < |ws| && LinkOK(c', w, k) && (w in c'.handlers ==> w < |ws|)
    requires c'.handlers - {w} == c.handlers - {w}
    ensures LinksOK(c', ws[w := k])
  {
    forall v | 0 <= v < |ws| && v != w ensures LinkOK(c', v, ws[v]) {
      assert v in c'.handlers <==> v in c'.handlers - {w};
      assert v in c.handlers <==> v in c.handlers - {w};
      assert v in c.handlers ==> (c'.handlers - {w})[v] == (c.handlers - {w})[v];
    }
    forall v | v in c'.handlers ensures v < |ws| {
      if v != w { assert v in c'.handlers - {w}; }
    }
  }

  lemma TablesMove(tables': seq<Table>, ws: seq<Worker>, w: nat, k: Worker)
    requires w < |ws|
    requires forall f: nat :: f < |tables'| ==>
               ArmedOK(tables'[f], Total(ws, DeliveryCount, f) - DeliveryCount(ws[w], f) + DeliveryCount(k, f))
    ensures TablesOK(tables', ws[w := k])
  {
    TotalSetAll(ws, w, k, DeliveryCount);
  }

  lemma ListedMove(tables: seq<Table>, tables': seq<Table>, interests: seq<Interest>, interests': seq<Interest>,
                   ws: seq<Worker>, w: nat, k: Worker)
    requires ListedOK(tables, interests, ws) && w < |ws|
    requires forall iid: nat :: Total(tables', ListedCount, iid) + Unfired(interests, iid) + WindowCount(ws[w], iid)
                                == Total(tables, ListedCount, iid) + Unfired(interests', iid) + WindowCount(k, iid)
    ensures ListedOK(tables', interests', ws[w := k])
  {
    TotalSetAll(ws, w, k, WindowCount);
  }

  /** One task changes. */
  lemma WaitsMove(tasks: seq<Task>, t: nat, task: Task, interests: seq<Interest>, moved: set<nat>)
    requires WaitsOK(tasks, interests, moved) && t < |tasks|
    requires forall iid :: iid in task.waits ==> WaitOK(task, t, interests, moved, iid)
    ensures WaitsOK(tasks[t := task], interests, moved)
  {
  }

  // The parts a step does not touch at all

  lemma LinksQuiet(c: Ch.Chan, ws: seq<Worker>, w: nat, k: Worker)
    requires LinksOK(c, ws) && w < |ws|
    requires CustomCount(BatchOf(k.pc)) == CustomCount(BatchOf(ws[w].pc)) && k.pc.InChannel? == ws[w].pc.InChannel?
    ensures LinksOK(c, ws[w := k])
  {
  }

  lemma BorrowsQuiet(ws: seq<Worker>, handles: multiset<nat>, w: nat, k: Worker)
    requires BorrowsOK(ws, handles) && w < |ws| && (k.pending == ws[w].pending || k.pending == None)
    ensures BorrowsOK(ws[w := k], handles)
  {
    TotalSetAll(ws, w, k, PendingCount);
  }

  lemma LocksQuiet(tables: seq<Table>, ws: seq<Worker>, w: nat, k: Worker)
    requires LocksOK(tables, ws) && w < |ws| && (HoldsLock(ws[w].pc) ==> HoldsLock(k.pc) && k.pc.fd == ws[w].pc.fd)
    ensures LocksOK(tables, ws[w := k])
  {
  }

  lemma TablesQuiet(tables: seq<Table>, ws: seq<Worker>, w: nat, k: Worker)
    requires TablesOK(tables, ws) && w < |ws| && forall f: nat :: DeliveryCount(k, f) == DeliveryCount(ws[w], f)
    ensures TablesOK(tables, ws[w := k])
  {
    TotalSetAll(ws, w, k, DeliveryCount);
  }

  lemma ListedQuiet(tables: seq<Table>, interests: seq<Interest>, ws: seq<Worker>, w: nat, k: Worker)
    requires ListedOK(tables, interests, ws) && w < |ws| && forall iid: nat :: WindowCount(k, iid) == WindowCount(ws[w], iid)
    ensures ListedOK(tables, interests, ws[w := k])
  {
    TotalSetAll(ws, w, k, WindowCount);
  }

  lemma TellsQuiet(interests: seq<Interest>, ws: seq<Worker>, w: nat, k: Worker)
    requires TellsOK(interests, ws) && w < |ws| && forall iid: nat :: FiringCount(k, iid) == FiringCount(ws[w], iid)
    ensures TellsOK(interests, ws[w := k])
  {
    TotalSetAll(ws, w, k, FiringCount);
  }

  lemma CountsSet(ws: seq<Worker>, w: nat, k: Worker)
    requires w < |ws|
    ensures forall t: nat :: Total(ws[w := k], TokenCount, t) == Total(ws, TokenCount, t) - TokenCount(ws[w], t) + TokenCount(k, t)
    ensures forall t: nat :: Total(ws[w := k], RefCount, t) == Total(ws, RefCount, t) - RefCount(ws[w], t) + RefCount(k, t)
    ensures forall t: nat :: Total(ws[w := k], RunCount, t) == Total(ws, RunCount, t) - RunCount(ws[w], t) + RunCount(k, t)
  {
    TotalSetAll(ws, w, k, TokenCount);
    TotalSetAll(ws, w, k, RefCount);
    TotalSetAll(ws, w, k, RunCount);
  }

  lemma DeliveryCountsSet(ws: seq<Worker>, w: nat, k: Worker)
    requires w < |ws|
    ensures forall f: nat :: Total(ws[w := k], DeliveryCount, f)
                             == Total(ws, DeliveryCount, f) - DeliveryCount(ws[w], f) + DeliveryCount(k, f)
  {
    TotalSetAll(ws, w, k, DeliveryCount);
  }

  lemma FireCountsSet(ws: seq<Worker>, w: nat, k: Worker)
    requires w < |ws|
    ensures forall i: nat :: Total(ws[w := k], FiringCount, i) == Total(ws, FiringCount, i) - FiringCount(ws[w], i) + FiringCount(k, i)
    ensures forall i: nat :: Total(ws[w := k], WindowCount, i) == Total(ws, WindowCount, i) - WindowCount(ws[w], i) + WindowCount(k, i)
  {
    TotalSetAll(ws, w, k, FiringCount);
    TotalSetAll(ws, w, k, WindowCount);
  }

  /** `k` holds what `j` held, except that it may have started to run what was in its deque. */
  ghost predicate SameHoldings(j: Worker, k: Worker)
  {
    && (forall t: nat :: TokenCount(k, t) == TokenCount(j, t) && RefCount(k, t) == RefCount(j, t) && RunCount(k, t) >= RunCount(j, t))
    && (forall f: nat :: DeliveryCount(k, f) == DeliveryCount(j, f))
    && (forall i: nat :: FiringCount(k, i) == FiringCount(j, i) && WindowCount(k, i) == WindowCount(j, i))
    && (HoldsLock(j.pc) ==> HoldsLock(k.pc) && k.pc.fd == j.pc.fd)
    && k.pending == j.pending
  }

  lemma QuietMove(s: System, w: nat, k: Worker)
    requires Inv(s) && w < |s.workers| && SameHoldings(s.workers[w], k)
    requires WorkerOK(s.tasks, s.tables, s.interests, w, k) && LinkOK(s.channel, w, k)
    ensures Inv(SetWorker(s, w, k))
  {
    CountsSet(s.workers, w, k);
    BorrowsQuiet(s.workers, s.handles, w, k);
    DeliveryCountsSet(s.workers, w, k);
    FireCountsSet(s.workers, w, k);
  }
}
