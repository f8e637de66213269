/**
  Driving one future on the calling thread: `EventQueue::run` and `InterruptNotify` (src/queue.rs) with the signal
  based `Interrupt` of the epoll backend (src/epoll/mod.rs).

  The runner resets `notified`, polls if it was set, publishes its thread id, waits in `epoll_pwait`, withdraws the
  id and dispatches.  A notify that finds `notified` clear sets it and interrupts: it reads the thread id and, if
  there is one, sends a signal.  A signal ends the wait if the runner is in it, and is swallowed if it is not.
*/
module RunLoop {
  import opened Prelude

  datatype Pc =
    | AtReset
    | InPoll
    | AtStore                    // about to publish the thread id
    | Entering                   // id published, not yet in the wait
    | InWait
    | AtClear(events: bool)      // the wait has ended, with events or by a signal; the id is still there
    | Dispatching
    | Finished

  /** How far the interrupt of the notify that set `notified` has got. */
  datatype Setter = Nobody | ToRead | ReadNone | Aimed | Swallowed | Landed

  /**
    `late` and `lateAimed` are interrupts of notifies that a reset has already consumed: still to read the id, and
    still to send the signal.  The rest is history: polls and interrupts begun, resets made, and where the runner was
    when `notified` was last set.
  */
  datatype Loop = Loop(
    pc: Pc, notified: bool, idStored: bool, setter: Setter, late: nat, lateAimed: nat,
    polls: nat, interrupts: nat, resets: nat, setAt: nat, setIn: Pc)

  datatype Action =
    | Reset | PollPending | PollReady | StoreId | EnterWait | ClearId | DispatchDone    // the runner
    | EventsArrive                                                                      // the kernel
    | Notify | ReadId | Kill | LateReadId | LateKill                                    // notifiers

  const START: Loop := Loop(AtReset, true, false, Nobody, 0, 0, 0, 0, 0, 0, AtReset)

  predicate Enabled(s: Loop, a: Action)
  {
    match a
    case Reset => s.pc == AtReset
    case PollPending => s.pc == InPoll
    case PollReady => s.pc == InPoll
    case StoreId => s.pc == AtStore
    case EnterWait => s.pc == Entering
    case EventsArrive => s.pc == InWait
    case ClearId => s.pc.AtClear?
    case DispatchDone => s.pc == Dispatching
    case Notify => true
    case ReadId => s.setter == ToRead
    case Kill => s.setter == Aimed
    case LateReadId => s.late > 0
    case LateKill => s.lateAimed > 0
  }

  function Apply(s: Loop, a: Action): Loop
    requires Enabled(s, a)
  {
    match a
    case Reset =>
      if s.notified then
        s.(pc := InPoll, notified := false, setter := Nobody, late := s.late + One(s.setter == ToRead),
           lateAimed := s.lateAimed + One(s.setter == Aimed), polls := s.polls + 1, resets := s.resets + 1)
      else s.(pc := AtStore, resets := s.resets + 1)
    case PollPending => s.(pc := AtStore)
    case PollReady => s.(pc := Finished)
    case StoreId => s.(pc := Entering, idStored := true)
    case EnterWait => s.(pc := InWait)
    case EventsArrive => s.(pc := AtClear(true))
    case ClearId => s.(pc := if s.pc.events then Dispatching else AtReset, idStored := false)
    case DispatchDone => s.(pc := AtReset)
    case Notify =>
      if s.notified then s
      else s.(notified := true, setter := ToRead, interrupts := s.interrupts + 1, setAt := s.resets, setIn := s.pc)
    case ReadId => s.(setter := if s.idStored then Aimed else ReadNone)
    case Kill => if s.pc == InWait then s.(pc := AtClear(false), setter := Landed) else s.(setter := Swallowed)
    case LateReadId => s.(late := s.late - 1, lateAimed := s.lateAimed + One(s.idStored))
    case LateKill => s.(lateAimed := s.lateAimed - 1, pc := if s.pc == InWait then AtClear(false) else s.pc)
  }

  /** Order of the points of one iteration after its reset. */
  function Rank(pc: Pc): nat
  {
    match pc
    case AtReset => 0
    case InPoll => 1
    case AtStore => 2
    case Entering => 3
    case InWait => 4
    case AtClear(_) => 5
    case Dispatching => 6
    case Finished => 7
  }

  /** The wait is over and the next reset has not happened. */
  predicate BackFromWait(s: Loop) { s.pc.AtClear? || s.pc == Dispatching || s.pc == AtReset }

  predicate Inv(s: Loop)
  {
    && s.polls + One(s.notified) == 1 + s.interrupts
    && (s.idStored <==> s.pc == Entering || s.pc == InWait || s.pc.AtClear?)
    && (!s.notified ==> s.setter == Nobody)
    && (s.notified && s.pc != AtReset ==> s.setter != Nobody && s.setAt == s.resets && 1 <= Rank(s.setIn) <= Rank(s.pc))
    && (s.setter == Landed ==> BackFromWait(s))
    && (s.pc == InWait && s.notified && s.setIn == InWait ==> s.setter == ToRead || s.setter == Aimed)
    && (s.pc != AtReset ==> s.resets > 0)
  }

  lemma StepKeepsInv(s: Loop, a: Action)
    requires Inv(s) && Enabled(s, a)
    ensures Inv(Apply(s, a))
  {
  }

  predicate Legal(s: Loop, run: seq<Action>)
    decreases |run|
  {
    run == [] || (Enabled(s, run[0]) && Legal(Apply(s, run[0]), run[1..]))
  }

  function Exec(s: Loop, run: seq<Action>): Loop
    requires Legal(s, run)
    decreases |run|
  {
    if run == [] then s else Exec(Apply(s, run[0]), run[1..])
  }

  lemma {:induction false} RunKeepsInv(s: Loop, run: seq<Action>)
    requires Inv(s) && Legal(s, run)
    ensures Inv(Exec(s, run))
    decreases |run|
  {
    if run != [] {
      StepKeepsInv(s, run[0]);
      RunKeepsInv(Apply(s, run[0]), run[1..]);
    }
  }

  ghost predicate Reachable(s: Loop) { exists run :: Legal(START, run) && s == Exec(START, run) }

  lemma ReachableInv(s: Loop)
    requires Reachable(s)
    ensures Inv(s)
  {
    var run :| Legal(START, run) && s == Exec(START, run);
    RunKeepsInv(START, run);
  }

  /** Polls and interrupts pair up: each poll after the first answers the interrupt of one notify. */
  lemma Accounting(s: Loop)
    requires Reachable(s)
    ensures s.polls == 1 + s.interrupts - One(s.notified)
  {
    ReachableInv(s);
  }

  /**
    The runner waits although `notified` is set: the notify came after this iteration's reset, and its interrupt
    either has still to act, or acted before the wait began (it found no id, or its signal was swallowed).
  */
  lemma WaitingNotified(s: Loop)
    requires Reachable(s) && s.pc == InWait && s.notified
    ensures s.setAt == s.resets
    ensures s.setter == ToRead || s.setter == Aimed
            || ((s.setter == ReadNone || s.setter == Swallowed)
                && (s.setIn == InPoll || s.setIn == AtStore || s.setIn == Entering))
  {
    ReachableInv(s);
  }

  // ---------------------------------------------------------------------------------------------------------
  // Which notifies are heard

  /** A notify made between the end of a wait and the next reset, dispatch included, is consumed by that reset. */
  lemma {:induction false} DispatchNotifyIsConsumed(s: Loop, run: seq<Action>)
    requires BackFromWait(s) && s.notified && Legal(s, run)
    ensures Exec(s, run).polls > s.polls || (BackFromWait(Exec(s, run)) && Exec(s, run).notified)
    decreases |run|
  {
    if run != [] {
      if run[0] == Reset { PollsGrow(Apply(s, run[0]), run[1..]); }
      else { DispatchNotifyIsConsumed(Apply(s, run[0]), run[1..]); }
    }
  }

  lemma {:induction false} PollsGrow(s: Loop, run: seq<Action>)
    requires Legal(s, run)
    ensures Exec(s, run).polls >= s.polls
    decreases |run|
  {
    if run != [] { PollsGrow(Apply(s, run[0]), run[1..]); }
  }

  /** What a run does before its first reset. */
  function UpToReset(run: seq<Action>): seq<Action>
  {
    if run == [] || run[0] == Reset then [] else [run[0]] + UpToReset(run[1..])
  }

  /** A wait that has ended is followed by a dispatch before the next reset if events ended it, and by none if a signal did. */
  lemma {:induction false} EventsAreDispatched(s: Loop, run: seq<Action>)
    requires Legal(s, run) && Reset in run && s.pc.AtClear?
    ensures DispatchDone in UpToReset(run) <==> s.pc.events
    decreases |run|
  {
    if run[0] == ClearId {
      DispatchIsDone(Apply(s, ClearId), run[1..]);
    } else {
      EventsAreDispatched(Apply(s, run[0]), run[1..]);
    }
  }

  lemma {:induction false} DispatchIsDone(s: Loop, run: seq<Action>)
    requires Legal(s, run) && Reset in run && (s.pc == Dispatching || s.pc == AtReset)
    ensures DispatchDone in UpToReset(run) <==> s.pc == Dispatching
    decreases |run|
  {
    if run[0] != Reset && run[0] != DispatchDone { DispatchIsDone(Apply(s, run[0]), run[1..]); }
    else if run[0] == DispatchDone { DispatchIsDone(Apply(s, run[0]), run[1..]); }
  }

  /** The runner on its own: no event, no signal, no further notify; the poll it may be in stays pending. */
  predicate RunsAlone(a: Action)
  {
    a == Reset || a == PollPending || a == StoreId || a == EnterWait || a == ClearId || a == DispatchDone
  }

  ghost predicate PollsAgain(s: Loop)
  {
    exists run: seq<Action> :: Legal(s, run) && (forall i :: 0 <= i < |run| ==> RunsAlone(run[i])) && Exec(s, run).polls > s.polls
  }

  /** A notify and its interrupt with nothing in between. */
  function Notified(s: Loop): Loop
    requires !s.notified
  {
    var read := Apply(Apply(s, Notify), ReadId);
    if read.setter == Aimed then Apply(read, Kill) else read
  }

  predicate BeforeWait(pc: Pc) { pc == InPoll || pc == AtStore || pc == Entering }

  lemma {:induction false} StuckAlone(s: Loop, run: seq<Action>)
    requires (BeforeWait(s.pc) || s.pc == InWait || s.pc == Finished) && Legal(s, run)
    requires forall i :: 0 <= i < |run| ==> RunsAlone(run[i])
    ensures Exec(s, run).polls == s.polls
    decreases |run|
  {
    if run != [] { StuckAlone(Apply(s, run[0]), run[1..]); }
  }

  lemma OneStep(s: Loop, a: Action, rest: seq<Action>)
    requires Enabled(s, a) && Legal(Apply(s, a), rest)
    ensures Legal(s, [a] + rest) && Exec(s, [a] + rest) == Exec(Apply(s, a), rest)
  {
    assert ([a] + rest)[1..] == rest;
  }

  lemma {:induction false} NextPoll(s: Loop) returns (run: seq<Action>)
    requires BackFromWait(s) && s.notified
    ensures Legal(s, run) && (forall i :: 0 <= i < |run| ==> RunsAlone(run[i])) && Exec(s, run).polls > s.polls
    decreases if s.pc == AtReset then 0 else if s.pc == Dispatching then 1 else 2
  {
    if s.pc == AtReset {
      OneStep(s, Reset, []);
      run := [Reset] + [];
    } else {
      var a := if s.pc == Dispatching then DispatchDone else ClearId;
      var rest := NextPoll(Apply(s, a));
      OneStep(s, a, rest);
      run := [a] + rest;
    }
  }

  /**
    Exactly which notifies `run` hears (it does not test `notified` again before blocking): a notify that acts at
    once makes the runner poll again, without help from any event, if and only if the runner is past the point of
    waiting or already in the wait.  One made during the poll, or between the poll and the wait, is not heard.
  */
  lemma NotifyIsHeard(s: Loop)
    requires Reachable(s) && !s.notified && s.pc != Finished
    ensures PollsAgain(Notified(s)) <==> !BeforeWait(s.pc)
  {
    ReachableInv(s);
    var n := Notified(s);
    if BeforeWait(s.pc) {
      forall run: seq<Action> | Legal(n, run) && (forall i :: 0 <= i < |run| ==> RunsAlone(run[i]))
        ensures Exec(n, run).polls == n.polls
      {
        StuckAlone(n, run);
      }
    } else {
      var run := NextPoll(n);
    }
  }

  /** Nothing new from outside: the runner, and the interrupts that are under way already. */
  predicate RunsOn(a: Action) { RunsAlone(a) || a == ReadId || a == Kill || a == LateReadId || a == LateKill }

  ghost predicate PollsOn(s: Loop)
  {
    exists run: seq<Action> :: Legal(s, run) && (forall i :: 0 <= i < |run| ==> RunsOn(run[i])) && Exec(s, run).polls > s.polls
  }

  /** Some interrupt has still to read the id or to send its signal. */
  predicate InFlight(s: Loop) { s.setter == ToRead || s.setter == Aimed || s.late > 0 || s.lateAimed > 0 }

  /** The signal of an interrupt in flight ends the wait. */
  lemma SignalEndsWait(s: Loop) returns (run: seq<Action>)
    requires Inv(s) && s.pc == InWait && s.notified && InFlight(s)
    ensures Legal(s, run) && (forall i :: 0 <= i < |run| ==> RunsOn(run[i]))
    ensures BackFromWait(Exec(s, run)) && Exec(s, run).notified && Exec(s, run).polls == s.polls
  {
    var read, kill := if s.setter == ToRead || s.setter == Aimed then ReadId else LateReadId,
                      if s.setter == ToRead || s.setter == Aimed then Kill else LateKill;
    run := [kill];
    if s.setter == Aimed || (s.setter != ToRead && s.lateAimed > 0) {
      OneStep(s, kill, []);
      assert [kill] == [kill] + [];
    } else {
      OneStep(Apply(s, read), kill, []);
      OneStep(s, read, [kill]);
      assert [kill] == [kill] + [];
      run := [read] + [kill];
    }
  }

  lemma {:induction false} Join(s: Loop, first: seq<Action>, second: seq<Action>)
    requires Legal(s, first) && Legal(Exec(s, first), second)
    ensures Legal(s, first + second) && Exec(s, first + second) == Exec(Exec(s, first), second)
    decreases |first|
  {
    if first == [] {
      assert first + second == second;
    } else {
      Join(Apply(s, first[0]), first[1..], second);
      assert (first + second)[1..] == first[1..] + second;
    }
  }

  /**
    When a waiting runner with `notified` set is stuck: with nothing new from outside it polls again if and only if
    some interrupt, its setter's or an earlier one, is still in flight.
  */
  lemma StuckIffNothingInFlight(s: Loop)
    requires Reachable(s) && s.pc == InWait && s.notified
    ensures PollsOn(s) <==> InFlight(s)
  {
    ReachableInv(s);
    if InFlight(s) {
      var ended := SignalEndsWait(s);
      var rest := NextPoll(Exec(s, ended));
      Join(s, ended, rest);
      var run := ended + rest;
      assert forall i :: 0 <= i < |run| ==> RunsOn(run[i]);
    } else {
      forall run: seq<Action> | Legal(s, run) && (forall i :: 0 <= i < |run| ==> RunsOn(run[i]))
        ensures Exec(s, run).polls == s.polls
      {
        NothingRunsOn(s, run);
      }
    }
  }

  lemma NothingRunsOn(s: Loop, run: seq<Action>)
    requires s.pc == InWait && !InFlight(s) && Legal(s, run) && forall i :: 0 <= i < |run| ==> RunsOn(run[i])
    ensures run == []
  {
    assert run != [] ==> RunsOn(run[0]);
  }

  lemma {:induction false} Extend(s: Loop, run: seq<Action>, a: Action)
    requires Legal(s, run) && Enabled(Exec(s, run), a)
    ensures Legal(s, run + [a]) && Exec(s, run + [a]) == Apply(Exec(s, run), a)
    decreases |run|
  {
    if run != [] {
      Extend(Apply(s, run[0]), run[1..], a);
      assert (run + [a])[1..] == run[1..] + [a];
    }
  }

  lemma ReachableStep(s: Loop, a: Action)
    requires Reachable(s) && Enabled(s, a)
    ensures Reachable(Apply(s, a))
  {
    var run :| Legal(START, run) && s == Exec(START, run);
    Extend(START, run, a);
  }

  /** A future that notifies itself in its first poll and returns NotReady: `run` blocks with `notified` set. */
  lemma SelfNotifyHangs() returns (s: Loop)
    ensures Reachable(s) && s.pc == InWait && s.notified && s.polls == 1 && !PollsAgain(s)
  {
    hide Reachable;
    var steps := [Reset, Notify, ReadId, PollPending, StoreId, EnterWait];
    s := START;
    StartIsReachable();
    for i := 0 to |steps|
      invariant Reachable(s)
      invariant i == 0 ==> s == START
      invariant i == 1 ==> s == START.(pc := InPoll, notified := false, polls := 1, resets := 1)
      invariant i == 2 ==> s.pc == InPoll && s.notified && s.polls == 1 && s.setter == ToRead && !s.idStored
      invariant i == 3 ==> s.pc == InPoll && s.notified && s.polls == 1
      invariant i == 4 ==> s.pc == AtStore && s.notified && s.polls == 1
      invariant i == 5 ==> s.pc == Entering && s.notified && s.polls == 1
      invariant i == 6 ==> s.pc == InWait && s.notified && s.polls == 1
    {
      ReachableStep(s, steps[i]);
      s := Apply(s, steps[i]);
    }
    forall run: seq<Action> | Legal(s, run) && (forall i :: 0 <= i < |run| ==> RunsAlone(run[i]))
      ensures Exec(s, run).polls == s.polls
    {
      StuckAlone(s, run);
    }
  }

  lemma StartIsReachable()
    ensures Reachable(START)
  {
    assert Legal(START, []) && Exec(START, []) == START;
  }

  // ---------------------------------------------------------------------------------------------------------
  // The objects the source updates

  /** Steps of other threads and of the kernel; those that cannot happen at the moment do not. */
  predicate Outside(a: Action) { a == Notify || a == ReadId || a == Kill || a == LateReadId || a == LateKill || a == EventsArrive }

  function After(s: Loop, acts: seq<Action>): Loop
    decreases |acts|
  {
    if acts == [] then s
    else After(if Outside(acts[0]) && Enabled(s, acts[0]) then Apply(s, acts[0]) else s, acts[1..])
  }

  /** What steps of the outside leave alone, and what they can do to a waiting runner. */
  predicate Beside(s: Loop, s': Loop)
  {
    && Inv(s') && s'.polls == s.polls && s'.resets == s.resets && s.interrupts <= s'.interrupts
    && if s.pc == InWait then s'.pc == InWait || s'.pc.AtClear? else s'.pc == s.pc
  }

  lemma OutsideStep(s: Loop, a: Action)
    requires Inv(s) && Outside(a) && Enabled(s, a)
    ensures Beside(s, Apply(s, a))
  {
  }

  lemma {:induction false} AfterKeeps(s: Loop, acts: seq<Action>)
    requires Inv(s)
    ensures Beside(s, After(s, acts))
    decreases |acts|
  {
    hide Inv, Apply, Enabled;
    if acts != [] {
      if Outside(acts[0]) && Enabled(s, acts[0]) {
        OutsideStep(s, acts[0]);
        AfterKeeps(Apply(s, acts[0]), acts[1..]);
      } else {
        AfterKeeps(s, acts[1..]);
      }
    }
  }

  /** The first thing that can end the wait is an event. */
  predicate EventsFirst(acts: seq<Action>)
  {
    acts != [] && (acts[0] == EventsArrive || (acts[0] != Kill && acts[0] != LateKill && EventsFirst(acts[1..])))
  }

  /** The notifies among them are heard, and none else. */
  lemma {:induction false} AfterHears(s: Loop, acts: seq<Action>)
    ensures After(s, acts).notified <==> s.notified || Notify in acts
    decreases |acts|
  {
    if acts != [] { AfterHears(if Outside(acts[0]) && Enabled(s, acts[0]) then Apply(s, acts[0]) else s, acts[1..]); }
  }

  /** How a wait ends: by events if they come first, by a signal if no events come, and not at all without either. */
  lemma {:induction false} AfterEnds(s: Loop, acts: seq<Action>)
    ensures s.pc == InWait && EventsFirst(acts) ==> After(s, acts).pc == AtClear(true)
    ensures s.pc == InWait && EventsArrive !in acts ==> After(s, acts).pc != AtClear(true)
    ensures s.pc == InWait && EventsArrive in acts ==> After(s, acts).pc != InWait
    ensures s.pc.AtClear? ==> After(s, acts).pc == s.pc
    decreases |acts|
  {
    if acts != [] { AfterEnds(if Outside(acts[0]) && Enabled(s, acts[0]) then Apply(s, acts[0]) else s, acts[1..]); }
  }

  /** What happens around the steps of one iteration, and whether its poll, if any, is ready. */
  datatype Iteration = Iteration(
    inPoll: seq<Action>, ready: bool, beforeStore: seq<Action>, beforeWait: seq<Action>, inWait: seq<Action>,
    afterWait: seq<Action>, inDispatch: seq<Action>)

  /** A notify is made after the poll of the iteration, its dispatch included if there is one. */
  predicate TurnTells(it: Iteration, dispatched: bool)
  {
    || Notify in it.beforeStore || Notify in it.beforeWait || Notify in it.inWait || Notify in it.afterWait
    || (dispatched && Notify in it.inDispatch)
  }

  /** A notify is made in the iteration: during its poll if it polls, or later. */
  predicate Tells(it: Iteration, polled: bool, dispatched: bool) { (polled && Notify in it.inPoll) || TurnTells(it, dispatched) }

  /** The iterations that poll among the first `n`: the first one, and those before which a notify was made. */
  ghost predicate PollsWhenTold(env: seq<Iteration>, polled: seq<nat>, dispatched: set<nat>, n: nat)
  {
    && n <= |env| && (n > 0 ==> 0 in polled)
    && (forall i, j :: 0 <= i < j < |polled| ==> polled[i] < polled[j]) && (forall j :: 0 <= j < |polled| ==> polled[j] < n)
    && forall m :: 0 < m < n ==> (m in polled <==> Tells(env[m - 1], m - 1 in polled, m - 1 in dispatched))
  }

  /** Those that dispatch among the first `n`, which have all returned from their wait. */
  ghost predicate DispatchesEvents(env: seq<Iteration>, dispatched: set<nat>, n: nat)
  {
    && n <= |env| && (forall m :: m in dispatched ==> m < n)
    && forall m :: 0 <= m < n ==> (EventsFirst(env[m].inWait) ==> m in dispatched) && (m in dispatched ==> EventsArrive in env[m].inWait)
  }

  ghost predicate NoneReady(env: seq<Iteration>, polled: seq<nat>)
  {
    forall j :: 0 <= j < |polled| ==> polled[j] < |env| && !env[polled[j]].ready
  }

  /** The reset of iteration `n` found `told`. */
  ghost predicate ToldBefore(env: seq<Iteration>, polled: seq<nat>, dispatched: set<nat>, n: nat, told: bool)
    requires n <= |env|
  {
    if n == 0 then told else told <==> Tells(env[n - 1], n - 1 in polled, n - 1 in dispatched)
  }

  function WithPoll(polled: seq<nat>, n: nat, was: bool): seq<nat> { if was then polled + [n] else polled }

  lemma PolledNext(env: seq<Iteration>, polled: seq<nat>, dispatched: set<nat>, n: nat, was: bool)
    requires PollsWhenTold(env, polled, dispatched, n) && n < |env| && ToldBefore(env, polled, dispatched, n, was)
    requires DispatchesEvents(env, dispatched, n)
    ensures PollsWhenTold(env, WithPoll(polled, n, was), dispatched, n + 1)
    ensures PollsWhenTold(env, WithPoll(polled, n, was), dispatched + {n}, n + 1)
  {
    hide Tells, DispatchesEvents;
    assert forall m: nat :: m in WithPoll(polled, n, was) <==> m in polled || (was && m == n);
  }

  lemma DispatchedNext(env: seq<Iteration>, dispatched: set<nat>, n: nat, events: bool)
    requires DispatchesEvents(env, dispatched, n) && n < |env|
    requires (EventsFirst(env[n].inWait) ==> events) && (events ==> EventsArrive in env[n].inWait)
    ensures DispatchesEvents(env, if events then dispatched + {n} else dispatched, n + 1)
  {
    hide EventsFirst;
  }

  lemma ToldNext(env: seq<Iteration>, polled: seq<nat>, dispatched: set<nat>, n: nat, was: bool, events: bool)
    requires n < |env| && (forall j :: 0 <= j < |polled| ==> polled[j] < n) && forall m :: m in dispatched ==> m < n
    ensures ToldBefore(env, WithPoll(polled, n, was), if events then dispatched + {n} else dispatched, n + 1, Tells(env[n], was, events))
  {
    hide Tells;
    assert n in WithPoll(polled, n, was) <==> was;
  }

  /** A thread as the kernel sees it: not in `epoll_pwait`, in it, or sent out of it. */
  datatype Wait = Away | Inside | Ended(events: bool)

  function WaitOf(pc: Pc): Wait { if pc == InWait then Inside else if pc.AtClear? then Ended(pc.events) else Away }

  /**
    `InterruptNotify` and its `Interrupt`, which are the two atomics; beside them where the kernel has the running
    thread, and how far the notifying threads have got.
  */
  class Runner {
    var notified: bool
    var idStored: bool
    var wait: Wait
    var setter: Setter
    var late: nat
    var lateAimed: nat
    ghost var at: Loop

    ghost predicate Valid()
      reads this
    {
      && Inv(at) && at.notified == notified && at.idStored == idStored && WaitOf(at.pc) == wait
      && at.setter == setter && at.late == late && at.lateAimed == lateAimed
    }

    /** A poll is owed: the first one, or one for the latest interrupt. */
    ghost predicate Owed() reads this { at.polls < 1 + at.interrupts }

    constructor ()
      ensures Valid() && at == START && Owed()
    {
      notified, idStored, wait, setter, late, lateAimed, at := true, false, Away, Nobody, 0, 0, START;
    }

    /** `InterruptNotify::reset`: true exactly if a poll was owed, which is then begun. */
    method Reset() returns (was: bool)
      requires Valid() && at.pc == AtReset
      modifies this
      ensures Valid() && at == Apply(old(at), Action.Reset)
      ensures (was <==> old(Owed())) && !Owed() && at.polls == old(at).polls + One(was)
    {
      was := notified;
      if was {
        late := late + One(setter == ToRead);
        lateAimed := lateAimed + One(setter == Aimed);
        setter := Nobody;
      }
      notified := false;
      at := Apply(at, Action.Reset);
    }

    /** `InterruptNotify::notify` up to the call of `interrupt`: a poll is owed, and only the call that makes it so interrupts. */
    method Notify() returns (interrupt: bool)
      requires Valid()
      modifies this
      ensures Valid() && at == Apply(old(at), Action.Notify)
      ensures Owed() && (interrupt <==> !old(Owed())) && at.interrupts == old(at).interrupts + One(interrupt)
    {
      interrupt := !notified;
      if interrupt { setter := ToRead; }
      notified := true;
      at := Apply(at, Action.Notify);
    }

    /** A step of the runner other than a reset. */
    method Step(a: Action)
      requires Valid() && Enabled(at, a) && (RunsAlone(a) || a == PollReady) && a != Action.Reset
      modifies this`idStored, this`wait, this`at
      ensures Valid() && at == Apply(old(at), a)
    {
      StepKeepsInv(at, a);
      idStored := if a == StoreId then true else if a == ClearId then false else idStored;
      wait := if a == EnterWait then Inside else Away;
      at := Apply(at, a);
    }

    /** A signal for the running thread: it ends the wait, or is swallowed. */
    method Signal() returns (landed: bool)
      modifies this`wait
      ensures landed <==> old(wait) == Inside
      ensures wait == if landed then Ended(false) else old(wait)
    {
      landed := wait == Inside;
      if landed { wait := Ended(false); }
    }

    /** One step of a notifying thread or of the kernel, if it can be taken. */
    method Other(a: Action)
      requires Valid() && Outside(a)
      modifies this
      ensures Valid() && at == if Enabled(old(at), a) then Apply(old(at), a) else old(at)
    {
      ghost var next := if Enabled(at, a) then Apply(at, a) else at;
      if Enabled(at, a) { StepKeepsInv(at, a); }
      match a {
        case Notify => var interrupt := Notify();
        case ReadId => if setter == ToRead { setter := if idStored then Aimed else ReadNone; }
        case Kill => if setter == Aimed {
          var landed := Signal();
          setter := if landed then Landed else Swallowed;
        }
        case LateReadId => if late > 0 { late, lateAimed := late - 1, lateAimed + One(idStored); }
        case LateKill => if lateAimed > 0 {
          var landed := Signal();
          lateAimed := lateAimed - 1;
        }
        case EventsArrive => if wait == Inside { wait := Ended(true); }
      }
      at := next;
    }

    method Others(acts: seq<Action>)
      requires Valid()
      modifies this
      ensures Valid() && at == After(old(at), acts) && Beside(old(at), at)
      ensures at.notified <==> old(at).notified || Action.Notify in acts
    {
      AfterKeeps(at, acts);
      AfterHears(at, acts);
      hide Inv, Apply, Beside;
      var rest := acts;
      while rest != []
        invariant Valid() && After(at, rest) == After(old(at), acts)
        decreases |rest|
      {
        if Outside(rest[0]) { Other(rest[0]); }
        rest := rest[1..];
      }
    }

    /** `turn_interruptible(None)`: false means that the wait does not end; what ends it with events is then dispatched. */
    method Turn(it: Iteration) returns (returned: bool, dispatched: bool)
      requires Valid() && at.pc == AtStore
      modifies this
      ensures Valid() && at.polls == old(at).polls && at.resets == old(at).resets
      ensures at.pc == if returned then AtReset else InWait
      ensures returned ==> (at.notified <==> old(at).notified || TurnTells(it, dispatched))
      ensures returned ==> (EventsFirst(it.inWait) ==> dispatched) && (dispatched ==> EventsArrive in it.inWait)
      ensures !returned ==> EventsArrive !in it.inWait && !dispatched
    {
      hide Inv, After;
      dispatched := false;
      Others(it.beforeStore);
      Step(StoreId);
      Others(it.beforeWait);
      Step(EnterWait);
      AfterEnds(at, it.inWait);
      Others(it.inWait);
      if wait == Inside { return false, false; }
      AfterEnds(at, it.afterWait);
      Others(it.afterWait);
      dispatched := wait.events;
      Step(ClearId);
      if dispatched {
        Others(it.inDispatch);
        Step(DispatchDone);
      }
      returned := true;
    }

    /** One iteration of `run`: a poll if one is owed, and unless that was ready, a turn. */
    method Iterate(it: Iteration) returns (was: bool, ready: bool, returned: bool, events: bool)
      requires Valid() && at.pc == AtReset
      modifies this
      ensures Valid() && was == old(at).notified && at.polls == old(at).polls + One(was) && at.resets == old(at).resets + 1
      ensures ready == (was && it.ready) && (ready ==> at.pc == Finished)
      ensures !ready ==> at.pc == if returned then AtReset else InWait
      ensures !ready && returned ==> (at.notified <==> Tells(it, was, events))
      ensures !ready && returned ==> (EventsFirst(it.inWait) ==> events) && (events ==> EventsArrive in it.inWait)
      ensures !ready && !returned ==> EventsArrive !in it.inWait
    {
      hide TurnTells, EventsFirst;
      ready, returned, events := false, false, false;
      was := Reset();
      if was {
        Others(it.inPoll);
        if it.ready {
          Step(PollReady);
          return was, true, false, false;
        }
        Step(PollPending);
      }
      returned, events := Turn(it);
    }

    /**
      `EventQueue::run` over the given iterations: true when the future is ready.  Otherwise the runner blocks, or
      the iterations are used up.  `polled` are the iterations that poll: the first, and exactly those before which a
      notify was made since the previous reset.  `dispatched` are those whose wait was ended by events: exactly then
      a notify made in the handlers counts.  Only the last poll can have been ready.
    */
    method Run(env: seq<Iteration>) returns (ready: bool, ghost polled: seq<nat>, ghost dispatched: set<nat>)
      requires Valid() && at == START
      modifies this
      ensures Valid() && at.polls + One(Owed()) == 1 + at.interrupts && |polled| == at.polls && at.resets <= |env|
      ensures PollsWhenTold(env, polled, dispatched, at.resets)
      ensures DispatchesEvents(env, dispatched, if at.pc == AtReset then at.resets else at.resets - 1)
      ensures forall j :: 0 <= j < |polled| ==> (env[polled[j]].ready <==> ready && j == |polled| - 1)
      ensures ready ==> at.pc == Finished && polled != [] && polled[|polled| - 1] == at.resets - 1
      ensures !ready ==> at.pc == InWait || (at.pc == AtReset && at.resets == |env|)
      ensures at.pc == InWait ==> at.resets > 0 && EventsArrive !in env[at.resets - 1].inWait
    {
      hide Tells, EventsFirst, ToldBefore, Inv;
      polled, dispatched := [], {};
      FirstIsTold(env);
      for n := 0 to |env|
        invariant Valid() && at.pc == AtReset && at.resets == n && |polled| == at.polls
        invariant PollsWhenTold(env, polled, dispatched, n) && DispatchesEvents(env, dispatched, n) && NoneReady(env, polled)
        invariant ToldBefore(env, polled, dispatched, n, at.notified)
      {
        var was, done, returned, events := Iterate(env[n]);
        PolledNext(env, polled, dispatched, n, was);
        ToldNext(env, polled, dispatched, n, was, events);
        polled := WithPoll(polled, n, was);
        if done || !returned {
          Accounted();
          return done, polled, dispatched;
        }
        DispatchedNext(env, dispatched, n, events);
        dispatched := if events then dispatched + {n} else dispatched;
      }
      Accounted();
      ready := false;
    }

    lemma Accounted()
      requires Valid()
      ensures at.polls + One(Owed()) == 1 + at.interrupts
    {
    }
  }

  lemma FirstIsTold(env: seq<Iteration>)
    ensures ToldBefore(env, [], {}, 0, true) && PollsWhenTold(env, [], {}, 0) && DispatchesEvents(env, {}, 0)
  {
  }
}
