/** Every step of the composed system keeps the invariant; one lemma a step. */
module WakeProofs {
  import opened Prelude
  import opened Interests
  import opened TaskProtocol
  import opened WakeSystem
  import opened WakeInvariant
  import Ch = CustomEvents

  // ---------------------------------------------------------------------------------------------------------
  // Tokens are exclusive

  lemma TokenIsDue(s: System, w: nat, t: nat)
    requires TokensOK(s.tasks, s.channel.queue, s.workers) && w < |s.workers| && TokenCount(s.workers[w], t) > 0
    ensures t < |s.tasks| && !s.tasks[t].done && s.tasks[t].level > 0
    ensures TokenCount(s.workers[w], t) == 1 && t !in s.channel.queue
  {
    TotalAtLeast(s.workers, w, TokenCount, t);
  }

  lemma OneHolder(s: System, v: nat, w: nat, t: nat)
    requires TokensOK(s.tasks, s.channel.queue, s.workers) && v < |s.workers| && w < |s.workers|
    requires TokenCount(s.workers[v], t) > 0 && TokenCount(s.workers[w], t) > 0
    ensures v == w
  {
    if v < w { TotalAtLeastTwo(s.workers, v, w, TokenCount, t); }
    if w < v { TotalAtLeastTwo(s.workers, w, v, TokenCount, t); }
  }

  /** A token that is not a running do_poll belongs to a task that is in nobody's do_poll. */
  lemma RestingToken(s: System, w: nat, t: nat)
    requires TokensOK(s.tasks, s.channel.queue, s.workers) && RunsOK(s.tasks, s.workers) && w < |s.workers|
    requires TokenCount(s.workers[w], t) > 0 && RunCount(s.workers[w], t) == 0
    ensures t < |s.tasks| && !s.tasks[t].done && s.tasks[t].level > 0 && !InDoPoll(StageOf(s.tasks[t].log))
  {
    TokenIsDue(s, w, t);
    if InDoPoll(StageOf(s.tasks[t].log)) {
      var v := TotalWitness(s.workers, RunCount, t);
      OneHolder(s, v, w, t);
    }
  }

  // ---------------------------------------------------------------------------------------------------------
  // The worker loop

  lemma KeepCheckActive(s: System, w: nat)
    requires Inv(s) && Enabled(s, CheckActive(w))
    ensures Inv(CheckActiveStep(s, w))
  {
    hide BorrowsOK, TasksOK, TokensOK, RefsOK, SlotsOK, RunsOK, ChannelOK, LocksOK, TablesOK, EntriesOK, ListedOK, InterestsOK, TellsOK, WaitsOK;
    QuietMove(s, w, s.workers[w].(pc := if s.active then LocalWork else Exited));
  }

  lemma KeepLocalDone(s: System, w: nat)
    requires Inv(s) && Enabled(s, LocalDone(w))
    ensures Inv(LocalDoneStep(s, w))
  {
    hide BorrowsOK, TasksOK, TokensOK, RefsOK, SlotsOK, RunsOK, ChannelOK, LocksOK, TablesOK, EntriesOK, ListedOK, InterestsOK, TellsOK, WaitsOK;
    QuietMove(s, w, s.workers[w].(pc := Stealing));
  }

  /** Stealing moves a token and a reference from the deque into the do_poll. */
  lemma StealHoldings(j: Worker)
    requires j.pc.Stealing? && j.deque != []
    ensures SameHoldings(j, Worker(AtLoad(j.deque[0]), j.deque[1..], j.pending))
    ensures TokenCount(j, j.deque[0]) > 0
  {
    forall t: nat ensures Occurrences(j.deque, t) == Occurrences(j.deque[1..], t) + One(j.deque[0] == t) {
      OccurrencesPop(j.deque, t);
    }
    OccurrencesPop(j.deque, j.deque[0]);
  }

  lemma KeepSteal(s: System, w: nat)
    requires Inv(s) && Enabled(s, Steal(w))
    ensures Inv(StealStep(s, w))
  {
    hide BorrowsOK, TasksOK, TokensOK, RefsOK, SlotsOK, RunsOK, ChannelOK, LocksOK, TablesOK, EntriesOK, ListedOK, InterestsOK, TellsOK, WaitsOK;
    StealHoldings(s.workers[w]);
    RestingToken(s, w, s.workers[w].deque[0]);
    QuietMove(s, w, StealStep(s, w).workers[w]);
  }

  lemma KeepStealEmpty(s: System, w: nat)
    requires Inv(s) && Enabled(s, StealEmpty(w))
    ensures Inv(StealEmptyStep(s, w))
  {
    hide BorrowsOK, TasksOK, TokensOK, RefsOK, SlotsOK, RunsOK, ChannelOK, LocksOK, TablesOK, EntriesOK, ListedOK, InterestsOK, TellsOK, WaitsOK;
    QuietMove(s, w, s.workers[w].(pc := Waiting(true, [])));
  }

  lemma KeepStealInconsistent(s: System, w: nat)
    requires Inv(s) && Enabled(s, StealInconsistent(w))
    ensures Inv(StealInconsistentStep(s, w))
  {
    hide BorrowsOK, TasksOK, TokensOK, RefsOK, SlotsOK, RunsOK, ChannelOK, LocksOK, TablesOK, EntriesOK, ListedOK, InterestsOK, TellsOK, WaitsOK;
    QuietMove(s, w, s.workers[w].(pc := Waiting(false, [])));
  }

  lemma KeepReturn(s: System, w: nat)
    requires Inv(s) && Enabled(s, ReturnFromWait(w))
    ensures Inv(ReturnStep(s, w))
  {
    hide BorrowsOK, TasksOK, TokensOK, RefsOK, SlotsOK, RunsOK, ChannelOK, LocksOK, TablesOK, EntriesOK, ListedOK, InterestsOK, TellsOK, WaitsOK;
    QuietMove(s, w, s.workers[w].(pc := Dispatching(s.workers[w].pc.batch)));
  }

  lemma DispatchHoldings(j: Worker)
    requires j.pc.Dispatching? && j.pc.batch != []
    ensures SameHoldings(j, j.(pc := if j.pc.batch[0].Custom? then InChannel(j.pc.batch[1..])
                                     else AtLock(j.pc.batch[0].fd, j.pc.batch[0].word, j.pc.batch[1..])))
  {
  }

  lemma KeepDispatch(s: System, w: nat)
    requires Inv(s) && Enabled(s, Dispatch(w))
    ensures Inv(DispatchStep(s, w))
  {
    hide BorrowsOK, TasksOK, TokensOK, RefsOK, SlotsOK, RunsOK, ChannelOK, LocksOK, TablesOK, EntriesOK, ListedOK, InterestsOK, TellsOK, WaitsOK;
    var batch := s.workers[w].pc.batch;
    if batch == [] {
      QuietMove(s, w, s.workers[w].(pc := AtTop));
    } else {
      hide SameHoldings;
      assert batch[0] in batch;
      DispatchHoldings(s.workers[w]);
      QuietMove(s, w, DispatchStep(s, w).workers[w]);
    }
  }

  // ---------------------------------------------------------------------------------------------------------
  // do_poll

  /** A worker that does not run `t` does not see a change of it. */
  lemma OthersOnTask(s: System, w: nat, t: nat, k: Task)
    requires TokensOK(s.tasks, s.channel.queue, s.workers)
    requires WorkersOK(s.tasks, s.tables, s.interests, s.workers)
    requires w < |s.workers| && t < |s.tasks| && RunningTask(s.workers[w].pc) == Some(t)
    ensures forall v :: 0 <= v < |s.workers| && v != w ==> WorkerOK(s.tasks[t := k], s.tables, s.interests, v, s.workers[v])
  {
    forall v | 0 <= v < |s.workers| && v != w ensures RunningTask(s.workers[v].pc) != Some(t) {
      if RunningTask(s.workers[v].pc) == Some(t) { OneHolder(s, v, w, t); }
    }
  }

  /** The runner of `t` runs on at the same level, or leaves do_poll with the task finished or at level 0. */
  predicate RunsOnOrStops(was: Task, task: Task, pc: Activity)
  {
    if pc == Stealing then
      (task.done || task.level == 0) && task.strong == was.strong - 1 && !InDoPoll(StageOf(task.log))
    else
      task.level == was.level && task.done == was.done && task.strong == was.strong
  }

  lemma RunnerCounts(tasks: seq<Task>, queue: seq<nat>, ws: seq<Worker>, handles: multiset<nat>,
                     w: nat, t: nat, task: Task, pc: Activity)
    requires TokensOK(tasks, queue, ws) && RefsOK(tasks, queue, ws, handles) && RunsOK(tasks, ws)
    requires w < |ws| && t < |tasks| && !tasks[t].done && tasks[t].level > 0
    requires RunningTask(ws[w].pc) == Some(t) && (RunningTask(pc) == Some(t) || pc == Stealing)
    requires RunsOnOrStops(tasks[t], task, pc)
    ensures var tasks', ws' := tasks[t := task], ws[w := ws[w].(pc := pc)];
            TokensOK(tasks', queue, ws') && RefsOK(tasks', queue, ws', handles) && RunsOK(tasks', ws')
  {
    hide TokensOK, RefsOK, RunsOK;
    var k := ws[w].(pc := pc);
    TokensMove(tasks, tasks[t := task], queue, queue, ws, w, k);
    RefsMove(tasks, tasks[t := task], queue, queue, handles, handles, ws, w, k);
    RunsMove(tasks, tasks[t := task], ws, w, k);
  }

  lemma RunnerMove(s: System, w: nat, t: nat, task: Task, pc: Activity)
    requires Inv(s) && Free(s, w) && t < |s.tasks|
    requires RunningTask(s.workers[w].pc) == Some(t) && (RunningTask(pc) == Some(t) || pc == Stealing)
    requires RunsOnOrStops(s.tasks[t], task, pc) && TaskInv(task)
    requires WorkerOK(s.tasks[t := task], s.tables, s.interests, w, s.workers[w].(pc := pc))
    requires forall iid :: iid in task.waits ==> WaitOK(task, t, s.interests, s.moved, iid)
    ensures Inv(Go(SetTask(s, t, task), w, pc))
  {
    hide BorrowsOK, TokensOK, RefsOK, RunsOK, WorkersOK, WorkerOK, ChannelOK, LinksOK, LocksOK, TablesOK, EntriesOK, ListedOK, InterestsOK,
         TellsOK, WaitsOK, WaitOK, TaskInv, SlotsOK, RunsOnOrStops;
    var k := s.workers[w].(pc := pc);
    TokenIsDue(s, w, t);
    OthersOnTask(s, w, t, task);
    RunnerCounts(s.tasks, s.channel.queue, s.workers, s.handles, w, t, task, pc);
    WorkersMove(s.tasks[t := task], s.tables, s.interests, s.workers, w, k);
    LinksQuiet(s.channel, s.workers, w, k);
    LocksQuiet(s.tables, s.workers, w, k);
    BorrowsQuiet(s.workers, s.handles, w, k);
    TablesQuiet(s.tables, s.workers, w, k);
    ListedQuiet(s.tables, s.interests, s.workers, w, k);
    TellsQuiet(s.interests, s.workers, w, k);
    WaitsMove(s.tasks, t, task, s.interests, s.moved);
  }

  lemma RunnerFacts(s: System, w: nat, t: nat)
    requires Inv(s) && w < |s.workers| && RunningTask(s.workers[w].pc) == Some(t)
    ensures t < |s.tasks| && TaskInv(s.tasks[t]) && !s.tasks[t].done && s.tasks[t].level > 0
    ensures WorkerOK(s.tasks, s.tables, s.interests, w, s.workers[w])
    ensures forall iid :: iid in s.tasks[t].waits ==> WaitOK(s.tasks[t], t, s.interests, s.moved, iid)
  {
    hide RefsOK, SlotsOK, RunsOK, ChannelOK, LinksOK, LocksOK, TablesOK, EntriesOK, ListedOK, InterestsOK, WorkerOK, WaitOK, TaskInv;
    TokenIsDue(s, w, t);
  }

  lemma KeepLoad(s: System, w: nat)
    requires Inv(s) && Enabled(s, LoadLevel(w))
    ensures Inv(LoadStep(s, w))
  {
    hide BorrowsOK, TasksOK, TokensOK, RefsOK, SlotsOK, RunsOK, WorkersOK, ChannelOK, LinksOK, LocksOK, TablesOK, EntriesOK, ListedOK,
         InterestsOK, TellsOK, WaitsOK, TaskInv;
    var t := s.workers[w].pc.task;
    RunnerFacts(s, w, t);
    StageWhenRunning(s.tasks[t]);
    LoadKeeps(s.tasks[t]);
    RunnerMove(s, w, t, LoadTask(s.tasks[t]), AtBegin(t, s.tasks[t].level));
  }

  lemma StageWhenRunning(k: Task)
    requires TaskInv(k) && !k.done && !InDoPoll(StageOf(k.log))
    ensures StageOf(k.log) == Stage.Fresh || StageOf(k.log) == Asleep
  {
  }

  lemma KeepBegin(s: System, w: nat)
    requires Inv(s) && Enabled(s, BeginPoll(w))
    ensures Inv(BeginStep(s, w))
  {
    hide BorrowsOK, TasksOK, TokensOK, RefsOK, SlotsOK, RunsOK, WorkersOK, ChannelOK, LinksOK, LocksOK, TablesOK, EntriesOK, ListedOK,
         InterestsOK, TellsOK, WaitsOK, TaskInv;
    var t := s.workers[w].pc.task;
    RunnerFacts(s, w, t);
    BeginKeeps(s.tasks[t]);
    RunnerMove(s, w, t, BeginTask(s.tasks[t]), InPoll(t, s.workers[w].pc.seen));
  }

  lemma KeepPending(s: System, w: nat)
    requires Inv(s) && Enabled(s, PollPending(w))
    ensures Inv(PendingStep(s, w))
  {
    hide BorrowsOK, TasksOK, TokensOK, RefsOK, SlotsOK, RunsOK, WorkersOK, ChannelOK, LinksOK, LocksOK, TablesOK, EntriesOK, ListedOK,
         InterestsOK, TellsOK, WaitsOK, TaskInv;
    var t := s.workers[w].pc.task;
    RunnerFacts(s, w, t);
    EndKeeps(s.tasks[t]);
    RunnerMove(s, w, t, EndTask(s.tasks[t]), AtSwap(t, s.workers[w].pc.seen));
  }

  lemma KeepReady(s: System, w: nat)
    requires Inv(s) && Enabled(s, PollReady(w))
    ensures Inv(ReadyStep(s, w))
  {
    hide BorrowsOK, TasksOK, TokensOK, RefsOK, SlotsOK, RunsOK, WorkersOK, ChannelOK, LinksOK, LocksOK, TablesOK, EntriesOK, ListedOK,
         InterestsOK, TellsOK, WaitsOK, TaskInv;
    var t := s.workers[w].pc.task;
    RunnerFacts(s, w, t);
    FinishKeeps(s.tasks[t]);
    TaskInvIgnoresRefs(FinishTask(s.tasks[t]), DropRef(FinishTask(s.tasks[t])));
    RunnerMove(s, w, t, DropRef(FinishTask(s.tasks[t])), Stealing);
  }

  lemma TaskInvIgnoresRefs(k: Task, l: Task)
    requires TaskInv(k) && l.level == k.level && l.done == k.done && l.log == k.log
    ensures TaskInv(l)
  {
  }

  /** The compare_exchange succeeds: nothing notified since the load, so every wait of the task is still good. */
  lemma KeepSwapSleeps(s: System, w: nat)
    requires Inv(s) && Enabled(s, Swap(w)) && s.tasks[s.workers[w].pc.task].level == s.workers[w].pc.seen
    ensures Inv(SwapStep(s, w))
  {
    hide BorrowsOK, TasksOK, TokensOK, RefsOK, SlotsOK, RunsOK, WorkersOK, ChannelOK, LinksOK, LocksOK, TablesOK, EntriesOK, ListedOK,
         InterestsOK, TellsOK, WaitsOK, TaskInv;
    var t := s.workers[w].pc.task;
    var k := s.tasks[t];
    RunnerFacts(s, w, t);
    SleepIffUnnotified(k);
    SleepKeeps(k);
    TaskInvIgnoresRefs(SleepTask(k), DropRef(SleepTask(k)));
    assert !Stirred(k);
    RunnerMove(s, w, t, DropRef(SleepTask(k)), Stealing);
  }

  lemma KeepSwapFails(s: System, w: nat)
    requires Inv(s) && Enabled(s, Swap(w)) && s.tasks[s.workers[w].pc.task].level != s.workers[w].pc.seen
    ensures Inv(SwapStep(s, w))
  {
    hide BorrowsOK, TasksOK, TokensOK, RefsOK, SlotsOK, RunsOK, WorkersOK, ChannelOK, LinksOK, LocksOK, TablesOK, EntriesOK, ListedOK,
         InterestsOK, TellsOK, WaitsOK, TaskInv;
    var t := s.workers[w].pc.task;
    RunnerFacts(s, w, t);
    LoadKeeps(s.tasks[t]);
    RunnerMove(s, w, t, LoadTask(s.tasks[t]), AtBegin(t, s.tasks[t].level));
  }

  // ---------------------------------------------------------------------------------------------------------
  // notify and handles

  /** A notify of `t` changes nothing that any worker has in its local variables. */
  lemma NotifiedSeenBy(s: System, t: nat)
    requires WorkersOK(s.tasks, s.tables, s.interests, s.workers) && t < |s.tasks| && TaskInv(s.tasks[t])
    ensures forall v :: 0 <= v < |s.workers| ==>
              WorkerOK(s.tasks[t := NotifyTask(s.tasks[t])], s.tables, s.interests, v, s.workers[v])
  {
    NotifyKeeps(s.tasks[t]);
  }

  lemma NotifiedStirs(k: Task)
    requires TaskInv(k)
    ensures Stirred(NotifyTask(k)) && TaskInv(NotifyTask(k)) && InDoPoll(StageOf(NotifyTask(k).log)) == InDoPoll(StageOf(k.log))
  {
    NotifyKeeps(k);
  }

  /** A suspended or finished task is in nobody's deque, do_poll or notify. */
  lemma NotifyCounts(tasks: seq<Task>, queue: seq<nat>, ws: seq<Worker>, handles: multiset<nat>, w: nat, t: nat)
    requires TokensOK(tasks, queue, ws) && RefsOK(tasks, queue, ws, handles) && RunsOK(tasks, ws)
    requires w < |ws| && t < |tasks| && ws[w].pending == None && TaskInv(tasks[t])
    ensures var tasks' := tasks[t := NotifyTask(tasks[t])];
            var ws' := ws[w := ws[w].(pending := if tasks[t].level == 0 then Some(t) else None)];
            TokensOK(tasks', queue, ws') && RefsOK(tasks', queue, ws', handles) && RunsOK(tasks', ws')
  {
    hide TokensOK, RefsOK, RunsOK, TaskInv, StageOf;
    var task, k := NotifyTask(tasks[t]), ws[w].(pending := if tasks[t].level == 0 then Some(t) else None);
    NotifiedStirs(tasks[t]);
    ZeroIsUnfinished(tasks[t]);
    TokensMove(tasks, tasks[t := task], queue, queue, ws, w, k);
    RefsMove(tasks, tasks[t := task], queue, queue, handles, handles, ws, w, k);
    RunsSame(tasks, t, task, ws, w, k);
  }

  lemma ZeroIsUnfinished(k: Task)
    requires TaskInv(k)
    ensures k.done ==> k.level > 0
  {
    LevelCountsNotifies(k.log);
  }

  lemma RunsSame(tasks: seq<Task>, t: nat, task: Task, ws: seq<Worker>, w: nat, k: Worker)
    requires RunsOK(tasks, ws) && w < |ws| && t < |tasks|
    requires InDoPoll(StageOf(task.log)) == InDoPoll(StageOf(tasks[t].log))
    requires RunningTask(k.pc) == RunningTask(ws[w].pc)
    ensures RunsOK(tasks[t := task], ws[w := k])
  {
    TotalSetAll(ws, w, k, RunCount);
  }

  /** A notify that finds 0 is the only one in progress for its task. */
  lemma BorrowsNotified(tasks: seq<Task>, queue: seq<nat>, ws: seq<Worker>, handles: multiset<nat>, w: nat, t: nat)
    requires TokensOK(tasks, queue, ws) && BorrowsOK(ws, handles)
    requires w < |ws| && t < |tasks| && ws[w].pending == None && handles[t] > 0
    ensures BorrowsOK(ws[w := ws[w].(pending := if tasks[t].level == 0 then Some(t) else None)], handles)
  {
    var k := ws[w].(pending := if tasks[t].level == 0 then Some(t) else None);
    TotalSetAll(ws, w, k, PendingCount);
    TotalBelow(ws, PendingCount, TokenCount, t);
  }

  lemma KeepNotifyBy(s: System, w: nat, t: nat)
    requires Inv(s) && Free(s, w) && t < |s.tasks|
    requires s.handles[t] > 0 && (RunsUserCode(s.workers[w].pc) || s.workers[w].pc.AtFire?)
    ensures Inv(NotifyBy(s, w, t))
  {
    hide BorrowsOK, TokensOK, RefsOK, SlotsOK, RunsOK, WorkersOK, ChannelOK, LinksOK, LocksOK, TablesOK, EntriesOK, ListedOK,
         InterestsOK, TellsOK, WaitsOK, WaitOK, WorkerOK, TaskInv, Stirred, StageOf, NotifyTask;
    var task, k := NotifyTask(s.tasks[t]), s.workers[w].(pending := if s.tasks[t].level == 0 then Some(t) else None);
    NotifiedStirs(s.tasks[t]);
    NotifiedSeenBy(s, t);
    NotifyCounts(s.tasks, s.channel.queue, s.workers, s.handles, w, t);
    PendingAllowed(s.tasks[t := task], s.tables, s.interests, w, s.workers[w], k);
    WorkersMove(s.tasks[t := task], s.tables, s.interests, s.workers, w, k);
    LinksQuiet(s.channel, s.workers, w, k);
    LocksQuiet(s.tables, s.workers, w, k);
    BorrowsNotified(s.tasks, s.channel.queue, s.workers, s.handles, w, t);
    TablesQuiet(s.tables, s.workers, w, k);
    ListedQuiet(s.tables, s.interests, s.workers, w, k);
    WaitsStirred(s.tasks, t, s.interests, s.moved);
    TellsQuiet(s.interests, s.workers, w, k);
    WaitsMove(s.tasks, t, task, s.interests, s.moved);
  }

  lemma PendingAllowed(tasks: seq<Task>, tables: seq<Table>, interests: seq<Interest>, w: nat, j: Worker, k: Worker)
    requires WorkerOK(tasks, tables, interests, w, j) && k == j.(pending := k.pending)
    requires RunsUserCode(j.pc) || j.pc.AtFire? || k.pending == None
    ensures WorkerOK(tasks, tables, interests, w, k)
  {
  }

  lemma WaitsStirred(tasks: seq<Task>, t: nat, interests: seq<Interest>, moved: set<nat>)
    requires WaitsOK(tasks, interests, moved) && t < |tasks| && Stirred(NotifyTask(tasks[t]))
    ensures forall iid :: iid in NotifyTask(tasks[t]).waits ==> WaitOK(NotifyTask(tasks[t]), t, interests, moved, iid)
  {
    hide Stirred;
  }

  lemma KeepNotify(s: System, w: nat, t: nat)
    requires Inv(s) && Enabled(s, Notify(w, t))
    ensures Inv(NotifyStep(s, w, t))
  {
    hide Inv;
    KeepNotifyBy(s, w, t);
  }

  lemma PushCounts(tasks: seq<Task>, queue: seq<nat>, ws: seq<Worker>, handles: multiset<nat>, w: nat, t: nat)
    requires TokensOK(tasks, queue, ws) && RefsOK(tasks, queue, ws, handles) && RunsOK(tasks, ws)
    requires w < |ws| && t < |tasks| && ws[w].pending == Some(t)
    ensures var tasks', ws' := AddRef(tasks, t, 1), ws[w := Worker(ws[w].pc, ws[w].deque + [t], None)];
            TokensOK(tasks', queue, ws') && RefsOK(tasks', queue, ws', handles) && RunsOK(tasks', ws')
  {
    hide TokensOK, RefsOK, RunsOK, StageOf;
    var j, k := ws[w], Worker(ws[w].pc, ws[w].deque + [t], None);
    forall x: nat ensures Occurrences(k.deque, x) == Occurrences(j.deque, x) + One(x == t) { OccurrencesPush(j.deque, t, x); }
    TokensMove(tasks, AddRef(tasks, t, 1), queue, queue, ws, w, k);
    RefsMove(tasks, AddRef(tasks, t, 1), queue, queue, handles, handles, ws, w, k);
    RunsSame(tasks, t, AddRef(tasks, t, 1)[t], ws, w, k);
  }

  /** Only the reference count of `t` changes: no thread and no wait sees it. */
  lemma RefsUnseen(s: System, t: nat, d: int)
    requires t < |s.tasks|
    requires TasksOK(s.tasks) && WorkersOK(s.tasks, s.tables, s.interests, s.workers)
    requires WaitsOK(s.tasks, s.interests, s.moved)
    ensures TasksOK(AddRef(s.tasks, t, d)) && WorkersOK(AddRef(s.tasks, t, d), s.tables, s.interests, s.workers)
    ensures WaitsOK(AddRef(s.tasks, t, d), s.interests, s.moved)
  {
    hide StageOf;
  }

  lemma KeepPushNotified(s: System, w: nat)
    requires Inv(s) && Enabled(s, PushNotified(w))
    ensures Inv(PushNotifiedStep(s, w))
  {
    var j, t := s.workers[w], s.workers[w].pending.value;
    var k := Worker(j.pc, j.deque + [t], None);
    hide BorrowsOK, TasksOK, TokensOK, RefsOK, SlotsOK, RunsOK, WorkersOK, WorkerOK, ChannelOK, LinksOK, LocksOK, TablesOK, EntriesOK,
         ListedOK, InterestsOK, TellsOK, WaitsOK;
    RefsUnseen(s, t, 1);
    PushCounts(s.tasks, s.channel.queue, s.workers, s.handles, w, t);
    PushedAllowed(AddRef(s.tasks, t, 1), s.tables, s.interests, s.workers, w, k);
    LinksQuiet(s.channel, s.workers, w, k);
    LocksQuiet(s.tables, s.workers, w, k);
    BorrowsQuiet(s.workers, s.handles, w, k);
    TablesQuiet(s.tables, s.workers, w, k);
    ListedQuiet(s.tables, s.interests, s.workers, w, k);
    TellsQuiet(s.interests, s.workers, w, k);
  }

  lemma PushedAllowed(tasks: seq<Task>, tables: seq<Table>, interests: seq<Interest>, ws: seq<Worker>, w: nat, k: Worker)
    requires WorkersOK(tasks, tables, interests, ws) && w < |ws| && ws[w].pending.Some?
    requires k.pc == ws[w].pc && k.pending == None
    ensures WorkersOK(tasks, tables, interests, ws[w := k])
  {
    assert WorkerOK(tasks, tables, interests, w, ws[w]);
  }

  lemma ForeignCounts(tasks: seq<Task>, queue: seq<nat>, ws: seq<Worker>, handles: multiset<nat>, t: nat)
    requires TokensOK(tasks, queue, ws) && RefsOK(tasks, queue, ws, handles) && RunsOK(tasks, ws)
    requires t < |tasks| && tasks[t].level > 0 && TaskInv(tasks[t])
    ensures var tasks' := tasks[t := NotifyTask(tasks[t])];
            TokensOK(tasks', queue, ws) && RefsOK(tasks', queue, ws, handles) && RunsOK(tasks', ws)
  {
    hide TaskInv, StageOf;
    NotifiedStirs(tasks[t]);
    var tasks' := tasks[t := NotifyTask(tasks[t])];
    assert forall x: nat :: Due(tasks', x) == Due(tasks, x) && StrongOf(tasks', x) == StrongOf(tasks, x);
  }

  lemma KeepForeignNotify(s: System, t: nat)
    requires Inv(s) && Enabled(s, ForeignNotify(t))
    ensures Inv(ForeignNotifyStep(s, t))
  {
    hide Inv;
    KeepOutsideNotify(s, t);
  }

  lemma KeepOutsideNotify(s: System, t: nat)
    requires Inv(s) && t < |s.tasks| && s.tasks[t].level > 0
    ensures Inv(NotifyFromOutside(s, t))
  {
    hide BorrowsOK, TokensOK, RefsOK, SlotsOK, RunsOK, ChannelOK, LinksOK, LocksOK, TablesOK, EntriesOK, ListedOK,
         InterestsOK, TellsOK, WaitsOK, WaitOK, WorkerOK, TaskInv, Stirred, StageOf, NotifyTask;
    NotifiedStirs(s.tasks[t]);
    NotifiedSeenBy(s, t);
    ForeignCounts(s.tasks, s.channel.queue, s.workers, s.handles, t);
    WaitsStirred(s.tasks, t, s.interests, s.moved);
    WaitsMove(s.tasks, t, NotifyTask(s.tasks[t]), s.interests, s.moved);
  }

  lemma RefCounts(tasks: seq<Task>, queue: seq<nat>, ws: seq<Worker>, handles: multiset<nat>, handles': multiset<nat>, t: nat, d: int)
    requires TokensOK(tasks, queue, ws) && RefsOK(tasks, queue, ws, handles) && RunsOK(tasks, ws) && t < |tasks|
    requires forall x: nat :: handles'[x] == handles[x] + if x == t then d else 0
    ensures TokensOK(AddRef(tasks, t, d), queue, ws) && RefsOK(AddRef(tasks, t, d), queue, ws, handles')
    ensures RunsOK(AddRef(tasks, t, d), ws)
  {
    hide StageOf;
    var tasks' := AddRef(tasks, t, d);
    assert forall x: nat :: Due(tasks', x) == Due(tasks, x) && StrongOf(tasks', x) == StrongOf(tasks, x) + if x == t then d else 0;
  }

  /** A handle more or less: nothing but the counts sees it, as long as the slots keep theirs. */
  lemma KeepHandleChange(s: System, t: nat, d: int, handles': multiset<nat>)
    requires Inv(s) && t < |s.tasks|
    requires forall x: nat :: handles'[x] == s.handles[x] + if x == t then d else 0
    requires SlotsOK(s.interests, handles') && BorrowsOK(s.workers, handles')
    ensures Inv(s.(tasks := AddRef(s.tasks, t, d), handles := handles'))
  {
    hide BorrowsOK, TasksOK, TokensOK, RefsOK, SlotsOK, RunsOK, WorkersOK, WorkerOK, ChannelOK, LinksOK, LocksOK, TablesOK, EntriesOK,
         ListedOK, InterestsOK, TellsOK, WaitsOK;
    RefsUnseen(s, t, d);
    RefCounts(s.tasks, s.channel.queue, s.workers, s.handles, handles', t, d);
  }

  lemma KeepGainHandle(s: System, t: nat)
    requires Inv(s) && t < |s.tasks|
    ensures Inv(GainHandle(s, t))
  {
    hide TasksOK, TokensOK, RefsOK, RunsOK, WorkersOK, ChannelOK, LinksOK, LocksOK, TablesOK, EntriesOK, ListedOK, InterestsOK, TellsOK, WaitsOK;
    KeepHandleChange(s, t, 1, AddHandle(s.handles, t));
  }

  lemma KeepCloneOwn(s: System, w: nat)
    requires Inv(s) && Enabled(s, CloneOwn(w))
    ensures Inv(CloneOwnStep(s, w))
  {
    hide Inv;
    KeepGainHandle(s, s.workers[w].pc.task);
  }

  lemma KeepCloneHandle(s: System, t: nat)
    requires Inv(s) && Enabled(s, CloneHandle(t))
    ensures Inv(CloneHandleStep(s, t))
  {
    hide Inv;
    KeepGainHandle(s, t);
  }

  lemma KeepDropHandle(s: System, t: nat)
    requires Inv(s) && Enabled(s, DropHandle(t))
    ensures Inv(DropHandleStep(s, t))
  {
    hide TasksOK, TokensOK, RefsOK, RunsOK, WorkersOK, ChannelOK, LinksOK, LocksOK, TablesOK, EntriesOK, ListedOK, InterestsOK, TellsOK, WaitsOK;
    KeepHandleChange(s, t, -1, RemoveHandle(s.handles, t));
  }

  // ---------------------------------------------------------------------------------------------------------
  // Spawning and the channel

  lemma SpawnCounts(tasks: seq<Task>, queue: seq<nat>, ws: seq<Worker>, handles: multiset<nat>)
    requires TokensOK(tasks, queue, ws) && RefsOK(tasks, queue, ws, handles) && RunsOK(tasks, ws)
    ensures var n := |tasks|;
            TokensOK(tasks + [SPAWNED], queue + [n], ws) && RefsOK(tasks + [SPAWNED], queue + [n], ws, handles)
            && RunsOK(tasks + [SPAWNED], ws)
  {
    var n, tasks' := |tasks|, tasks + [SPAWNED];
    forall x: nat ensures Occurrences(queue + [n], x) == Occurrences(queue, x) + One(x == n) { OccurrencesPush(queue, n, x); }
    assert forall x: nat :: Due(tasks', x) == Due(tasks, x) + One(x == n);
    assert forall x: nat :: StrongOf(tasks', x) == StrongOf(tasks, x) + One(x == n);
  }

  lemma SpawnUnseen(s: System)
    requires TasksOK(s.tasks) && WorkersOK(s.tasks, s.tables, s.interests, s.workers)
    requires WaitsOK(s.tasks, s.interests, s.moved)
    ensures TasksOK(s.tasks + [SPAWNED]) && WorkersOK(s.tasks + [SPAWNED], s.tables, s.interests, s.workers)
    ensures WaitsOK(s.tasks + [SPAWNED], s.interests, s.moved)
  {
  }

  lemma ChannelPush(c: Ch.Chan, n: nat)
    requires ChannelOK(c, n)
    ensures ChannelOK(Ch.Apply(c, Ch.Push(n)), n + 1)
  {
    Ch.StepKeepsInv(c, Ch.Push(n));
  }

  lemma KeepSpawnPush(s: System)
    requires Inv(s) && Enabled(s, SpawnPush)
    ensures Inv(SpawnPushStep(s))
  {
    hide BorrowsOK, TasksOK, TokensOK, RefsOK, SlotsOK, RunsOK, WorkersOK, ChannelOK, LinkOK, LocksOK, TablesOK, EntriesOK, ListedOK,
         InterestsOK, TellsOK, WaitsOK;
    SpawnCounts(s.tasks, s.channel.queue, s.workers, s.handles);
    SpawnUnseen(s);
    ChannelPush(s.channel, |s.tasks|);
    SameHandlersLink(s.channel, SpawnPushStep(s).channel, s.workers);
  }

  lemma SameHandlersLink(c: Ch.Chan, c': Ch.Chan, ws: seq<Worker>)
    requires LinksOK(c, ws) && c'.handlers == c.handlers
    ensures LinksOK(c', ws)
  {
  }

  /** A channel step that pushes nothing. */
  lemma ChannelStep(c: Ch.Chan, n: nat, a: Ch.Action)
    requires ChannelOK(c, n) && Ch.Enabled(c, a) && !a.Push?
    ensures ChannelOK(Ch.Apply(c, a), n)
  {
    hide Ch.Inv;
    Ch.StepKeepsInv(c, a);
  }

  lemma KeepSpawnWrite(s: System)
    requires Inv(s) && Enabled(s, SpawnWrite)
    ensures Inv(SpawnWriteStep(s))
  {
    hide BorrowsOK, TasksOK, TokensOK, RefsOK, SlotsOK, RunsOK, WorkersOK, ChannelOK, LinkOK, LocksOK, TablesOK, EntriesOK, ListedOK,
         InterestsOK, TellsOK, WaitsOK;
    ChannelStep(s.channel, |s.tasks|, Ch.Write);
    SameHandlersLink(s.channel, SpawnWriteStep(s).channel, s.workers);
  }

  lemma {:induction false} BatchPush(batch: seq<Delivery>, d: Delivery)
    ensures forall f: nat :: OnFdCount(batch + [d], f) == OnFdCount(batch, f) + One(d.OnFd? && d.fd == f)
    ensures CustomCount(batch + [d]) == CustomCount(batch) + One(d.Custom?)
  {
    if batch == [] {
      assert [] + [d] == [d];
      assert [d][1..] == [];
    } else {
      assert (batch + [d])[1..] == batch[1..] + [d];
      BatchPush(batch[1..], d);
    }
  }

  lemma DeliveredChannelLinks(c: Ch.Chan, ws: seq<Worker>, w: nat, k: Worker)
    requires LinksOK(c, ws) && w < |ws| && Ch.Enabled(c, Ch.Deliver(w))
    requires ws[w].pc.Waiting? && k.pc == Waiting(ws[w].pc.blocking, ws[w].pc.batch + [Custom])
    ensures LinksOK(Ch.Apply(c, Ch.Deliver(w)), ws[w := k])
  {
    BatchPush(ws[w].pc.batch, Custom);
    var c' := Ch.Apply(c, Ch.Deliver(w));
    assert c'.handlers - {w} == c.handlers - {w};
    LinksMove(c, c', ws, w, k);
  }

  lemma DeliveredAllowed(tasks: seq<Task>, tables: seq<Table>, interests: seq<Interest>, ws: seq<Worker>, w: nat, k: Worker, d: Delivery)
    requires WorkersOK(tasks, tables, interests, ws) && w < |ws|
    requires ws[w].pc.Waiting? && k == ws[w].(pc := Waiting(ws[w].pc.blocking, ws[w].pc.batch + [d]))
    requires d.OnFd? ==> d.fd < |tables|
    ensures WorkersOK(tasks, tables, interests, ws[w := k])
  {
    assert WorkerOK(tasks, tables, interests, w, ws[w]);
    forall e | e in ws[w].pc.batch + [d] && e.OnFd? ensures e.fd < |tables| {
      if e in ws[w].pc.batch { assert e in BatchOf(ws[w].pc); }
    }
    assert WorkerOK(tasks, tables, interests, w, k);
  }

  lemma KeepDeliverChannel(s: System, w: nat)
    requires Inv(s) && Enabled(s, DeliverChannel(w))
    ensures Inv(DeliverChannelStep(s, w))
  {
    hide BorrowsOK, TasksOK, TokensOK, RefsOK, SlotsOK, RunsOK, WorkersOK, ChannelOK, LinksOK, LocksOK, TablesOK, EntriesOK, ListedOK,
         InterestsOK, TellsOK, WaitsOK;
    var p := s.workers[w].pc;
    var k := s.workers[w].(pc := Waiting(p.blocking, p.batch + [Custom]));
    BatchPush(p.batch, Custom);
    ChannelStep(s.channel, |s.tasks|, Ch.Deliver(w));
    DeliveredChannelLinks(s.channel, s.workers, w, k);
    DeliveredAllowed(s.tasks, s.tables, s.interests, s.workers, w, k, Custom);
    TokensMove(s.tasks, s.tasks, s.channel.queue, s.channel.queue, s.workers, w, k);
    RefsMove(s.tasks, s.tasks, s.channel.queue, s.channel.queue, s.handles, s.handles, s.workers, w, k);
    RunsQuiet(s.tasks, s.workers, w, k);
    LocksQuiet(s.tables, s.workers, w, k);
    BorrowsQuiet(s.workers, s.handles, w, k);
    TablesQuiet(s.tables, s.workers, w, k);
    ListedQuiet(s.tables, s.interests, s.workers, w, k);
    TellsQuiet(s.interests, s.workers, w, k);
  }

  lemma RunsQuiet(tasks: seq<Task>, ws: seq<Worker>, w: nat, k: Worker)
    requires RunsOK(tasks, ws) && w < |ws| && RunningTask(k.pc) == RunningTask(ws[w].pc)
    ensures RunsOK(tasks, ws[w := k])
  {
    TotalSetAll(ws, w, k, RunCount);
  }

  lemma ReadCountLinks(c: Ch.Chan, ws: seq<Worker>, w: nat, a: Ch.Action)
    requires LinksOK(c, ws) && w < |ws| && ws[w].pc.InChannel? && (a == Ch.ReadCount(w) || a == Ch.Pop(w)) && Ch.Enabled(c, a)
    ensures LinksOK(Ch.Apply(c, a), ws)
  {
    var c' := Ch.Apply(c, a);
    assert c'.handlers - {w} == c.handlers - {w};
    assert LinkOK(c, w, ws[w]);
    LinksMove(c, c', ws, w, ws[w]);
    assert ws[w := ws[w]] == ws;
  }

  lemma KeepReadCount(s: System, w: nat)
    requires Inv(s) && Enabled(s, ReadCount(w))
    ensures Inv(ReadCountStep(s, w))
  {
    hide BorrowsOK, TasksOK, TokensOK, RefsOK, SlotsOK, RunsOK, WorkersOK, ChannelOK, LinksOK, LocksOK, TablesOK, EntriesOK, ListedOK,
         InterestsOK, TellsOK, WaitsOK;
    ChannelStep(s.channel, |s.tasks|, Ch.ReadCount(w));
    ReadCountLinks(s.channel, s.workers, w, Ch.ReadCount(w));
  }

  lemma PopCounts(tasks: seq<Task>, queue: seq<nat>, ws: seq<Worker>, handles: multiset<nat>, w: nat, k: Worker)
    requires TokensOK(tasks, queue, ws) && RefsOK(tasks, queue, ws, handles) && w < |ws| && queue != []
    requires k == ws[w].(deque := ws[w].deque + [queue[0]])
    ensures TokensOK(tasks, queue[1..], ws[w := k]) && RefsOK(tasks, queue[1..], ws[w := k], handles)
  {
    hide TokensOK, RefsOK;
    var t, j := queue[0], ws[w];
    forall x: nat ensures Occurrences(k.deque, x) == Occurrences(j.deque, x) + One(x == t) { OccurrencesPush(j.deque, t, x); }
    forall x: nat ensures Occurrences(queue, x) == Occurrences(queue[1..], x) + One(x == t) { OccurrencesPop(queue, x); }
    TokensMove(tasks, tasks, queue, queue[1..], ws, w, k);
    RefsMove(tasks, tasks, queue, queue[1..], handles, handles, ws, w, k);
  }

  lemma PoppedAllowed(tasks: seq<Task>, tables: seq<Table>, interests: seq<Interest>, ws: seq<Worker>, w: nat, k: Worker)
    requires WorkersOK(tasks, tables, interests, ws) && w < |ws| && ws[w].pc.InChannel? && k == ws[w].(deque := k.deque)
    ensures WorkersOK(tasks, tables, interests, ws[w := k])
  {
    assert WorkerOK(tasks, tables, interests, w, ws[w]);
  }

  lemma KeepPop(s: System, w: nat)
    requires Inv(s) && Enabled(s, PopDatum(w))
    ensures Inv(PopStep(s, w))
  {
    hide BorrowsOK, TasksOK, TokensOK, RefsOK, SlotsOK, RunsOK, WorkersOK, ChannelOK, LinksOK, LocksOK, TablesOK, EntriesOK, ListedOK,
         InterestsOK, TellsOK, WaitsOK;
    ChannelStep(s.channel, |s.tasks|, Ch.Pop(w));
    ReadCountLinks(s.channel, s.workers, w, Ch.Pop(w));
    var q := s.channel.queue;
    if q != [] {
      var k := s.workers[w].(deque := s.workers[w].deque + [q[0]]);
      PopCounts(s.tasks, q, s.workers, s.handles, w, k);
      PoppedAllowed(s.tasks, s.tables, s.interests, s.workers, w, k);
      RunsQuiet(s.tasks, s.workers, w, k);
      LinksQuiet(PopStep(s, w).channel, s.workers, w, k);
      LocksQuiet(s.tables, s.workers, w, k);
      BorrowsQuiet(s.workers, s.handles, w, k);
      TablesQuiet(s.tables, s.workers, w, k);
      ListedQuiet(s.tables, s.interests, s.workers, w, k);
      TellsQuiet(s.interests, s.workers, w, k);
    }
  }

  lemma RearmedLinks(c: Ch.Chan, ws: seq<Worker>, w: nat, k: Worker)
    requires LinksOK(c, ws) && w < |ws| && ws[w].pc.InChannel? && Ch.Enabled(c, Ch.Rearm(w))
    requires k.pc == Dispatching(ws[w].pc.batch)
    ensures LinksOK(Ch.Apply(c, Ch.Rearm(w)), ws[w := k])
  {
    var c' := Ch.Apply(c, Ch.Rearm(w));
    assert c'.handlers - {w} == c.handlers - {w};
    assert LinkOK(c, w, ws[w]);
    LinksMove(c, c', ws, w, k);
  }

  lemma KeepRearmChannel(s: System, w: nat)
    requires Inv(s) && Enabled(s, RearmChannel(w))
    ensures Inv(RearmChannelStep(s, w))
  {
    hide BorrowsOK, TasksOK, TokensOK, RefsOK, SlotsOK, RunsOK, ChannelOK, LinksOK, LocksOK, TablesOK, EntriesOK, ListedOK,
         InterestsOK, TellsOK, WaitsOK;
    var k := s.workers[w].(pc := Dispatching(s.workers[w].pc.batch));
    ChannelStep(s.channel, |s.tasks|, Ch.Rearm(w));
    RearmedLinks(s.channel, s.workers, w, k);
    TokensMove(s.tasks, s.tasks, s.channel.queue, s.channel.queue, s.workers, w, k);
    RefsMove(s.tasks, s.tasks, s.channel.queue, s.channel.queue, s.handles, s.handles, s.workers, w, k);
    RunsQuiet(s.tasks, s.workers, w, k);
    WorkersMove(s.tasks, s.tables, s.interests, s.workers, w, k);
    LocksQuiet(s.tables, s.workers, w, k);
    BorrowsQuiet(s.workers, s.handles, w, k);
    TablesQuiet(s.tables, s.workers, w, k);
    ListedQuiet(s.tables, s.interests, s.workers, w, k);
    TellsQuiet(s.interests, s.workers, w, k);
  }
}
