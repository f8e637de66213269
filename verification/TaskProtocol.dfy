/**
  The wake-up protocol of one global task (src/evloop/threadpool/mod.rs).

  A task is one atomic `signal_level`.  Spawning sets it to 1, `notify` adds 1 and enqueues the task only when
  it found 0, and `do_poll` puts it back to 0 only if it has not moved since it was last read.  `Task` is the
  value; every atomic access of the source is one function on it, and `log` records the accesses in order so that
  statements about whole runs can be made.
*/
module TaskProtocol {
  import opened Prelude

  datatype Event =
    | Notified   // fetch_add(1)
    | Loaded     // the level was read by do_poll: the first load, or the value a failed compare_exchange returned
    | Began      // poll_future_notify is entered
    | Ended      // it returned NotReady
    | Slept      // compare_exchange(level, 0) succeeded
    | Finished   // poll_future_notify returned Ready

  /** `strong` is the Arc count; `waits` are the interests the latest poll has seen unfired. */
  datatype Task = Task(level: nat, done: bool, strong: int, waits: set<nat>, log: seq<Event>)

  const SPAWNED: Task := Task(1, false, 1, {}, [])

  function Note(k: Task, e: Event): Task { k.(log := k.log + [e]) }
  function NotifyTask(k: Task): Task { Note(k, Notified).(level := k.level + 1) }
  function LoadTask(k: Task): Task { Note(k, Loaded) }
  function BeginTask(k: Task): Task { Note(k, Began).(waits := {}) }
  function EndTask(k: Task): Task { Note(k, Ended) }
  function SleepTask(k: Task): Task { Note(k, Slept).(level := 0) }
  function FinishTask(k: Task): Task { Note(k, Finished).(done := true) }

  /** Where the task is, as its log tells it. */
  datatype Stage = Fresh | Read | Polling | Polled | Asleep | Over

  function StageOf(log: seq<Event>): Stage
  {
    if log == [] then Fresh else
      match log[|log| - 1]
      case Notified => StageOf(log[..|log| - 1])
      case Loaded => Read
      case Began => Polling
      case Ended => Polled
      case Slept => Asleep
      case Finished => Over
  }

  predicate InDoPoll(stage: Stage) { stage == Read || stage == Polling || stage == Polled }

  /** The level the log accounts for. */
  function LevelOf(log: seq<Event>): nat
  {
    if log == [] then 1 else
      var before := LevelOf(log[..|log| - 1]);
      match log[|log| - 1]
      case Notified => before + 1
      case Slept => 0
      case _ => before
  }

  /** The level the running do_poll holds in `init_signal_level`. */
  function LoadedLevel(log: seq<Event>): nat
  {
    if log == [] then 0 else if log[|log| - 1] == Loaded then LevelOf(log[..|log| - 1]) else LoadedLevel(log[..|log| - 1])
  }

  function NotifiesSinceLoad(log: seq<Event>): nat
  {
    if log == [] then 0 else
      match log[|log| - 1]
      case Notified => NotifiesSinceLoad(log[..|log| - 1]) + 1
      case Loaded => 0
      case _ => NotifiesSinceLoad(log[..|log| - 1])
  }

  function CountOf(log: seq<Event>, e: Event): nat { multiset(log)[e] }

  /** Every access was made at a point where the code of do_poll makes it. */
  predicate GoodLog(log: seq<Event>)
  {
    log == [] ||
    var before := log[..|log| - 1];
    GoodLog(before) &&
    match log[|log| - 1]
    case Notified => true
    case Loaded =>
      || ((StageOf(before) == Fresh || StageOf(before) == Asleep) && LevelOf(before) > 0)
      || (StageOf(before) == Polled && LevelOf(before) != LoadedLevel(before))
    case Began => StageOf(before) == Read
    case Ended => StageOf(before) == Polling
    case Slept => StageOf(before) == Polled && LevelOf(before) == LoadedLevel(before)
    case Finished => StageOf(before) == Polling
  }

  predicate TaskInv(k: Task)
  {
    GoodLog(k.log) && k.level == LevelOf(k.log) && (k.done <==> StageOf(k.log) == Over)
  }

  lemma Snoc(log: seq<Event>, e: Event)
    ensures (log + [e])[..|log|] == log
  {
  }

  /** Each atomic access keeps the invariant; what it does to the derived quantities. */
  lemma NotifyKeeps(k: Task)
    requires TaskInv(k)
    ensures TaskInv(NotifyTask(k))
    ensures StageOf(NotifyTask(k).log) == StageOf(k.log) && LoadedLevel(NotifyTask(k).log) == LoadedLevel(k.log)
    ensures NotifiesSinceLoad(NotifyTask(k).log) == NotifiesSinceLoad(k.log) + 1
  {
    Snoc(k.log, Notified);
  }

  lemma LoadKeeps(k: Task)
    requires TaskInv(k) && k.level > 0 && !k.done
    requires StageOf(k.log) == Fresh || StageOf(k.log) == Asleep || (StageOf(k.log) == Polled && k.level != LoadedLevel(k.log))
    ensures TaskInv(LoadTask(k)) && StageOf(LoadTask(k).log) == Read && LoadedLevel(LoadTask(k).log) == k.level
  {
    Snoc(k.log, Loaded);
  }

  lemma BeginKeeps(k: Task)
    requires TaskInv(k) && StageOf(k.log) == Read
    ensures TaskInv(BeginTask(k)) && StageOf(BeginTask(k).log) == Polling && LoadedLevel(BeginTask(k).log) == LoadedLevel(k.log)
  {
    Snoc(k.log, Began);
  }

  lemma EndKeeps(k: Task)
    requires TaskInv(k) && StageOf(k.log) == Polling
    ensures TaskInv(EndTask(k)) && StageOf(EndTask(k).log) == Polled && LoadedLevel(EndTask(k).log) == LoadedLevel(k.log)
    ensures NotifiesSinceLoad(EndTask(k).log) == NotifiesSinceLoad(k.log)
  {
    Snoc(k.log, Ended);
  }

  lemma SleepKeeps(k: Task)
    requires TaskInv(k) && StageOf(k.log) == Polled && k.level == LoadedLevel(k.log)
    ensures TaskInv(SleepTask(k)) && StageOf(SleepTask(k).log) == Asleep
  {
    Snoc(k.log, Slept);
  }

  lemma FinishKeeps(k: Task)
    requires TaskInv(k) && StageOf(k.log) == Polling
    ensures TaskInv(FinishTask(k)) && StageOf(FinishTask(k).log) == Over
  {
    Snoc(k.log, Finished);
  }

  /** While do_poll runs, the level is what it read plus the notifies since; asleep, it is the notifies since. */
  lemma {:induction false} LevelCountsNotifies(log: seq<Event>)
    requires GoodLog(log)
    ensures InDoPoll(StageOf(log)) ==> LevelOf(log) == LoadedLevel(log) + NotifiesSinceLoad(log) && LevelOf(log) > 0
    ensures StageOf(log) == Asleep ==> LevelOf(log) == NotifiesSinceLoad(log)
    ensures StageOf(log) == Fresh || StageOf(log) == Over ==> LevelOf(log) > 0
  {
    if log != [] { LevelCountsNotifies(log[..|log| - 1]); }
  }

  /** The compare_exchange succeeds exactly when no notify came since the level was read. */
  lemma SleepIffUnnotified(k: Task)
    requires TaskInv(k) && StageOf(k.log) == Polled
    ensures k.level == LoadedLevel(k.log) <==> NotifiesSinceLoad(k.log) == 0
  {
    LevelCountsNotifies(k.log);
  }

  /** A complete poll, begun and ended, lies after position `i`. */
  predicate PolledAfter(log: seq<Event>, i: nat)
  {
    exists j, k :: i < j < k < |log| && log[j] == Began && log[k] == Ended
  }

  /** The latest load: nothing was notified after it if the count says so, and the poll it started is in the log. */
  lemma {:induction false} LatestLoad(log: seq<Event>) returns (m: nat, j: nat, k: nat)
    requires GoodLog(log) && (InDoPoll(StageOf(log)) || StageOf(log) == Asleep)
    ensures m < |log| && log[m] == Loaded
    ensures NotifiesSinceLoad(log) == 0 ==> forall i :: m < i < |log| ==> log[i] != Notified
    ensures StageOf(log) != Read ==> m < j < |log| && log[j] == Began
    ensures StageOf(log) == Polled || StageOf(log) == Asleep ==> j < k < |log| && log[k] == Ended
  {
    var last := |log| - 1;
    match log[last] {
      case Loaded => m, j, k := last, 0, 0;
      case Began => m, j, k := LatestLoad(log[..last]); j := last;
      case Ended => m, j, k := LatestLoad(log[..last]); k := last;
      case Notified => m, j, k := LatestLoad(log[..last]);
      case Slept => m, j, k := LatestLoad(log[..last]);
      case Finished => assert false;
    }
  }

  /** No lost notify: a task found at level 0 has had a complete poll begin and end after every notify. */
  lemma NoLostNotify(k: Task, i: nat)
    requires TaskInv(k) && k.level == 0 && i < |k.log| && k.log[i] == Notified
    ensures PolledAfter(k.log, i)
  {
    LevelCountsNotifies(k.log);
    var m, b, e := LatestLoad(k.log);
    assert i <= m;
  }

  /** Poll budget: each poll beyond the first is paid for by a notify of its own. */
  lemma {:induction false} PollBudget(log: seq<Event>)
    requires GoodLog(log)
    ensures CountOf(log, Began) <= 1 + CountOf(log, Notified)
    ensures StageOf(log) == Fresh ==> CountOf(log, Began) <= CountOf(log, Notified)
    ensures StageOf(log) == Asleep ==> CountOf(log, Began) + LevelOf(log) <= 1 + CountOf(log, Notified)
    ensures StageOf(log) == Read ==> CountOf(log, Began) + NotifiesSinceLoad(log) <= CountOf(log, Notified)
    ensures StageOf(log) == Polling || StageOf(log) == Polled ==>
              CountOf(log, Began) + NotifiesSinceLoad(log) <= 1 + CountOf(log, Notified)
  {
    if log != [] {
      var before := log[..|log| - 1];
      assert log == before + [log[|log| - 1]];
      PollBudget(before);
      LevelCountsNotifies(before);
    }
  }

  // ---------------------------------------------------------------------------------------------------------
  // The task as the object the source updates.  Other threads appear as the notifies they issue around each
  // step of one do_poll; after the listed rounds nobody notifies and the future stays pending.

  /** Notifies that land before the poll is entered, during it, and between its end and the compare_exchange. */
  datatype Round = Round(before: nat, during: nat, after: nat, ready: bool)

  predicate Quiet(r: Round) { !r.ready && r.before + r.during + r.after == 0 }

  /** The rounds one do_poll goes through: it stops at the first that is ready or sees no notify at all. */
  function RoundsUsed(env: seq<Round>): nat
  {
    if env == [] then 1 else if env[0].ready || Quiet(env[0]) then 1 else 1 + RoundsUsed(env[1..])
  }

  lemma OverIsAboveZero(k: Task)
    requires TaskInv(k) && StageOf(k.log) == Over
    ensures k.level > 0
  {
    LevelCountsNotifies(k.log);
  }

  class GlobalTask {
    var signalLevel: nat
    var finished: bool
    ghost var log: seq<Event>

    ghost function Value(): Task reads this { Task(signalLevel, finished, 1, {}, log) }
    ghost predicate Valid() reads this { TaskInv(Value()) }

    constructor ()
      ensures Value() == SPAWNED && Valid()
    {
      signalLevel, finished, log := 1, false, [];
    }

    /** `notify`: true means the caller saw level 0 and now has to enqueue the task. */
    method Notify() returns (enqueue: bool)
      requires Valid()
      modifies this
      ensures Valid() && Value() == NotifyTask(old(Value()))
      ensures enqueue <==> old(signalLevel) == 0
    {
      NotifyKeeps(Value());
      enqueue := signalLevel == 0;
      signalLevel := signalLevel + 1;
      log := log + [Notified];
    }

    /** `n` notifies by other threads during a do_poll; none of them finds level 0, so none enqueues. */
    method Interfere(n: nat)
      requires Valid() && InDoPoll(StageOf(log))
      modifies this
      ensures Valid() && finished == old(finished) && signalLevel == old(signalLevel) + n
      ensures StageOf(log) == old(StageOf(log)) && LoadedLevel(log) == old(LoadedLevel(log))
      ensures NotifiesSinceLoad(log) == old(NotifiesSinceLoad(log)) + n
      ensures CountOf(log, Began) == old(CountOf(log, Began))
    {
      for i := 0 to n
        invariant Valid() && InDoPoll(StageOf(log)) && finished == old(finished) && signalLevel == old(signalLevel) + i
        invariant StageOf(log) == old(StageOf(log)) && LoadedLevel(log) == old(LoadedLevel(log))
        invariant NotifiesSinceLoad(log) == old(NotifiesSinceLoad(log)) + i
        invariant CountOf(log, Began) == old(CountOf(log, Began))
      {
        LevelCountsNotifies(log);
        NotifyKeeps(Value());
        var enqueue := Notify();
        assert !enqueue;
      }
    }

    /** The first access of do_poll. */
    method LoadLevel() returns (level: nat)
      requires Valid() && signalLevel > 0 && !finished && (StageOf(log) == Fresh || StageOf(log) == Asleep)
      modifies this
      ensures Valid() && Value() == LoadTask(old(Value())) && StageOf(log) == Read
      ensures level == signalLevel == LoadedLevel(log) && NotifiesSinceLoad(log) == 0
      ensures CountOf(log, Began) == old(CountOf(log, Began))
    {
      LoadKeeps(Value());
      level := signalLevel;
      log := log + [Loaded];
    }

    /** One `poll_future_notify`, with the notifies of the round around it. */
    method PollFuture(round: Round)
      requires Valid() && !finished && StageOf(log) == Read
      modifies this
      ensures Valid() && finished == round.ready && StageOf(log) == if round.ready then Over else Polled
      ensures LoadedLevel(log) == old(LoadedLevel(log)) && CountOf(log, Began) == old(CountOf(log, Began)) + 1
      ensures !round.ready ==>
                NotifiesSinceLoad(log) == old(NotifiesSinceLoad(log)) + round.before + round.during + round.after
    {
      hide StageOf, LevelOf, LoadedLevel, NotifiesSinceLoad, CountOf, GoodLog, TaskInv;
      Interfere(round.before);
      EnterPoll();
      Interfere(round.during);
      LeavePoll(round.ready);
      if !round.ready { Interfere(round.after); }
    }

    /** The future's poll is entered. */
    method EnterPoll()
      requires Valid() && !finished && StageOf(log) == Read
      modifies this`log
      ensures Valid() && Value() == BeginTask(old(Value())) && StageOf(log) == Polling && LoadedLevel(log) == old(LoadedLevel(log))
      ensures NotifiesSinceLoad(log) == old(NotifiesSinceLoad(log)) && CountOf(log, Began) == old(CountOf(log, Began)) + 1
    {
      BeginKeeps(Value());
      Snoc(log, Began);
      log := log + [Began];
    }

    /** The future's poll returns. */
    method LeavePoll(ready: bool)
      requires Valid() && !finished && StageOf(log) == Polling
      modifies this`log, this`finished
      ensures Valid() && finished == ready && StageOf(log) == if ready then Over else Polled
      ensures signalLevel == old(signalLevel) && LoadedLevel(log) == old(LoadedLevel(log))
      ensures NotifiesSinceLoad(log) == old(NotifiesSinceLoad(log)) && CountOf(log, Began) == old(CountOf(log, Began))
    {
      if ready {
        FinishKeeps(Value());
        Snoc(log, Finished);
        finished := true;
        log := log + [Finished];
      } else {
        EndKeeps(Value());
        log := log + [Ended];
      }
    }

    /** `compare_exchange(expected, 0)`: None on success, else the level found, which do_poll polls on with. */
    method CompareExchange(expected: nat) returns (found: Option<nat>)
      requires Valid() && !finished && StageOf(log) == Polled && expected == LoadedLevel(log)
      modifies this
      ensures Valid() && CountOf(log, Began) == old(CountOf(log, Began))
      ensures found == None <==> old(NotifiesSinceLoad(log)) == 0
      ensures found == None ==> Value() == SleepTask(old(Value())) && StageOf(log) == Asleep
      ensures found.Some? ==> Value() == LoadTask(old(Value())) && StageOf(log) == Read
                              && found.value == signalLevel == LoadedLevel(log) && NotifiesSinceLoad(log) == 0
    {
      SleepIffUnnotified(Value());
      if signalLevel == expected {
        SleepKeeps(Value());
        signalLevel := 0;
        log := log + [Slept];
        found := None;
      } else {
        LevelCountsNotifies(log);
        LoadKeeps(Value());
        found := Some(signalLevel);
        log := log + [Loaded];
      }
    }

    /**
      `do_poll`: called by the holder of the task's run token.  It ends with the future finished, or with the
      task asleep at level 0 and every notify of the run answered by a later complete poll.
    */
    method DoPoll(env: seq<Round>) returns (ghost polls: nat)
      requires Valid() && !finished && signalLevel > 0 && (StageOf(log) == Fresh || StageOf(log) == Asleep)
      modifies this
      ensures Valid() && (finished <==> signalLevel != 0)
      ensures !finished ==> forall i :: 0 <= i < |log| && log[i] == Notified ==> PolledAfter(log, i)
      ensures CountOf(log, Began) == old(CountOf(log, Began)) + polls && polls == RoundsUsed(env)
      ensures finished <==> polls <= |env| && env[polls - 1].ready
    {
      hide StageOf, LevelOf, LoadedLevel, NotifiesSinceLoad, CountOf, GoodLog, TaskInv, PolledAfter;
      var initSignalLevel := LoadLevel();
      var rest := env;
      polls := 0;
      while true
        invariant Valid() && !finished && StageOf(log) == Read && initSignalLevel == LoadedLevel(log)
        invariant NotifiesSinceLoad(log) == 0
        invariant polls <= |env| && rest == env[polls..] && polls + RoundsUsed(rest) == RoundsUsed(env)
        invariant CountOf(log, Began) == old(CountOf(log, Began)) + polls
        decreases |rest|
      {
        var round := if rest != [] then rest[0] else Round(0, 0, 0, false);
        PollFuture(round);
        polls := polls + 1;
        if round.ready { OverIsAboveZero(Value()); return; }
        var found := CompareExchange(initSignalLevel);
        if found == None { break; }
        initSignalLevel := found.value;
        rest := rest[1..];
      }
      forall i | 0 <= i < |log| && log[i] == Notified ensures PolledAfter(log, i) { NoLostNotify(Value(), i); }
    }
  }
}
