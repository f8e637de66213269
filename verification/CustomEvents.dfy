/**
  The custom-event channel of the epoll backend (src/epoll/mod.rs): a queue, an eventfd in semaphore mode, and a
  one-shot level-triggered registration of that eventfd.

  A post is two steps, the push and the eventfd write, with anything in between.  A delivery takes the armed
  registration away and gives a thread a handler to run: one count is read, the queue is drained, the
  registration is armed again.  `Chan` is the shared state with the history of what was pushed and handed out.
*/
module CustomEvents {
  import opened Prelude

  type ThreadId = nat

  /** `new_custom_event`: the eventfd is registered before the handler's event pointer is set and the tag exists. */
  datatype Phase = Unregistered | Registered | PointerSet | Published

  /** A thread's handler run: still to read the eventfd, draining the queue, or about to re-arm. */
  datatype HandlerStep = ToRead | Draining | ToRearm

  datatype Chan = Chan(
    phase: Phase,
    armed: bool,
    count: nat,                             // the eventfd
    queue: seq<nat>,
    unwritten: nat,                         // posts between their push and their write
    handlers: map<ThreadId, HandlerStep>,   // deliveries taken from the kernel and not yet re-armed
    pushed: seq<nat>,                       // history: every datum pushed, in order
    handed: seq<nat>,                       // history: every datum given to the handler, in order
    deliveries: nat,                        // history: deliveries made, eventfd counts read
    counted: nat)

  datatype Action =
    | Register | SetPointer | Publish
    | Push(datum: nat) | Write
    | Deliver(w: ThreadId) | ReadCount(w: ThreadId) | Pop(w: ThreadId) | Rearm(w: ThreadId)

  const NEW_CHANNEL: Chan := Chan(Unregistered, false, 0, [], 0, map[], [], [], 0, 0)

  /** A channel that has been set up. */
  const OPEN_CHANNEL: Chan := NEW_CHANNEL.(phase := Published, armed := true)

  predicate At(c: Chan, w: ThreadId, h: HandlerStep) { w in c.handlers && c.handlers[w] == h }

  /** Steps of posters and of the set-up, as against steps of a handler. */
  predicate Posting(a: Action) { a.Push? || a.Write? || a.Register? || a.SetPointer? || a.Publish? }

  predicate Enabled(c: Chan, a: Action)
  {
    match a
    case Register => c.phase == Unregistered
    case SetPointer => c.phase == Registered
    case Publish => c.phase == PointerSet
    case Push(_) => c.phase == Published
    case Write => c.unwritten > 0
    case Deliver(w) => c.armed && c.count > 0 && w !in c.handlers
    case ReadCount(w) => At(c, w, ToRead)
    case Pop(w) => At(c, w, Draining)
    case Rearm(w) => At(c, w, ToRearm)
  }

  function Apply(c: Chan, a: Action): Chan
    requires Enabled(c, a)
  {
    match a
    case Register => c.(phase := Registered, armed := true)
    case SetPointer => c.(phase := PointerSet)
    case Publish => c.(phase := Published)
    case Push(d) => c.(queue := c.queue + [d], pushed := c.pushed + [d], unwritten := c.unwritten + 1)
    case Write => c.(unwritten := c.unwritten - 1, count := c.count + 1)
    case Deliver(w) => c.(armed := false, handlers := c.handlers[w := ToRead], deliveries := c.deliveries + 1)
    case ReadCount(w) =>
      if c.count == 0 then c.(handlers := c.handlers[w := ToRearm])   // WouldBlock: nothing is drained
      else c.(count := c.count - 1, counted := c.counted + 1, handlers := c.handlers[w := Draining])
    case Pop(w) =>
      if c.queue == [] then c.(handlers := c.handlers[w := ToRearm])
      else c.(queue := c.queue[1..], handed := c.handed + [c.queue[0]])
    case Rearm(w) => c.(armed := true, handlers := c.handlers - {w})
  }

  // ---------------------------------------------------------------------------------------------------------
  // What every step keeps

  ghost predicate SomeAt(c: Chan, h: HandlerStep) { exists w :: At(c, w, h) }

  /** After registration exactly one of "armed" and "one handler is due or running" holds. */
  ghost predicate OneShot(c: Chan)
  {
    && (c.armed <==> c.phase != Unregistered && c.handlers == map[])
    && (forall v, w :: v in c.handlers && w in c.handlers ==> v == w)
    && (c.phase == Unregistered ==> c.handlers == map[])
  }

  /** What was handed out and what is queued is what was pushed, in push order. */
  predicate InOrder(c: Chan) { c.handed + c.queue == c.pushed }

  /** Every completed post is one eventfd count, read or still there. */
  ghost predicate Counted(c: Chan)
  {
    && c.count + c.counted + c.unwritten == |c.pushed|
    && c.deliveries == c.counted + (if SomeAt(c, ToRead) then 1 else 0)
    && (c.phase != Published ==> c.pushed == [])
  }

  /** A queued datum has a count, a poster about to write, or a drain coming for it. */
  ghost predicate NotStranded(c: Chan)
  {
    c.queue != [] ==> c.count > 0 || c.unwritten > 0 || SomeAt(c, Draining)
  }

  ghost predicate Inv(c: Chan)
  {
    OneShot(c) && InOrder(c) && Counted(c) && NotStranded(c) && (SomeAt(c, ToRead) ==> c.count > 0)
  }

  lemma PostingKeepsInv(c: Chan, a: Action)
    requires Inv(c) && Enabled(c, a) && Posting(a)
    ensures Inv(Apply(c, a))
  {
    var d := Apply(c, a);
    match a {
      case Register => assert !SomeAt(c, ToRead);
      case SetPointer => SameHandlers(c, d);
      case Publish => SameHandlers(c, d);
      case Push(x) =>
        SameHandlers(c, d);
        assert d.handed + d.queue == (c.handed + c.queue) + [x];
      case Write => SameHandlers(c, d);
    }
  }

  lemma HandlingKeepsInv(c: Chan, a: Action)
    requires Inv(c) && Enabled(c, a) && !Posting(a)
    ensures Inv(Apply(c, a))
  {
    var d := Apply(c, a);
    match a {
      case Deliver(w) => assert At(d, w, ToRead); assert !SomeAt(c, ToRead);
      case ReadCount(w) => assert SomeAt(c, ToRead); assert At(d, w, Draining); assert !SomeAt(d, ToRead);
      case Pop(w) =>
        assert !SomeAt(c, ToRead) && !SomeAt(d, ToRead);
        if c.queue != [] {
          assert At(d, w, Draining);
          assert c.handed + c.queue == (c.handed + [c.queue[0]]) + c.queue[1..];
        }
      case Rearm(w) =>
        assert !SomeAt(c, ToRead) && !SomeAt(c, Draining);
        assert d.handlers == map[];
        assert !SomeAt(d, ToRead);
    }
  }

  /** Every step of the channel keeps the invariant. */
  lemma StepKeepsInv(c: Chan, a: Action)
    requires Inv(c) && Enabled(c, a)
    ensures Inv(Apply(c, a))
  {
    hide Inv;
    if Posting(a) { PostingKeepsInv(c, a); } else { HandlingKeepsInv(c, a); }
  }

  lemma SameHandlers(c: Chan, d: Chan)
    requires c.handlers == d.handlers
    ensures forall h :: SomeAt(c, h) <==> SomeAt(d, h)
  {
    forall h ensures SomeAt(c, h) <==> SomeAt(d, h) {
      if SomeAt(c, h) { var w :| At(c, w, h); assert At(d, w, h); }
      if SomeAt(d, h) { var w :| At(d, w, h); assert At(c, w, h); }
    }
  }

  predicate Legal(c: Chan, run: seq<Action>)
    decreases |run|
  {
    run == [] || (Enabled(c, run[0]) && Legal(Apply(c, run[0]), run[1..]))
  }

  function Exec(c: Chan, run: seq<Action>): Chan
    requires Legal(c, run)
    decreases |run|
  {
    if run == [] then c else Exec(Apply(c, run[0]), run[1..])
  }

  /** Creation, step by step, opens the channel. */
  lemma SetUpOpens()
    ensures var run := [Register, SetPointer, Publish]; Legal(NEW_CHANNEL, run) && Exec(NEW_CHANNEL, run) == OPEN_CHANNEL
  {
    var c1 := Apply(NEW_CHANNEL, Register);
    var c2 := Apply(c1, SetPointer);
    OneMore(c2, Publish, []);
    OneMore(c1, SetPointer, [Publish]);
    OneMore(NEW_CHANNEL, Register, [SetPointer, Publish]);
  }

  lemma OneMore(c: Chan, a: Action, rest: seq<Action>)
    requires Enabled(c, a) && Legal(Apply(c, a), rest)
    ensures Legal(c, [a] + rest) && Exec(c, [a] + rest) == Exec(Apply(c, a), rest)
  {
    assert ([a] + rest)[1..] == rest;
  }

  lemma {:induction false} RunKeepsInv(c: Chan, run: seq<Action>)
    requires Inv(c) && Legal(c, run)
    ensures Inv(Exec(c, run))
    decreases |run|
  {
    if run != [] {
      StepKeepsInv(c, run[0]);
      RunKeepsInv(Apply(c, run[0]), run[1..]);
    }
  }

  /** What the invariant says to a reader who does not know it. */
  ghost predicate Safe(c: Chan)
  {
    && c.handed + c.queue == c.pushed
    && (c.queue != [] ==> c.count > 0 || c.unwritten > 0 || SomeAt(c, Draining))
    && (c.phase != Unregistered ==> (c.armed <==> |c.handlers| == 0) && |c.handlers| <= 1)
    && (forall w :: At(c, w, ToRead) ==> c.count > 0 && c.phase == Published)
  }

  lemma InvIsSafe(c: Chan)
    requires Inv(c)
    ensures Safe(c)
  {
    if c.handlers != map[] {
      var w :| w in c.handlers;
      assert c.handlers.Keys == {w};
      assert |c.handlers| == |c.handlers.Keys|;
    }
    forall w | At(c, w, ToRead) ensures c.count > 0 && c.phase == Published { assert SomeAt(c, ToRead); }
  }

  lemma NewChannelInv()
    ensures Inv(NEW_CHANNEL)
  {
    assert !SomeAt(NEW_CHANNEL, ToRead);
  }

  /**
    Channel safety over every run of the channel from its creation, by any number of posters and threads:
    delivery is in push order and exactly once, nothing queued is stranded, and a thread that is about to read the
    eventfd finds a count (the WouldBlock branch is dead) and an event pointer that has been set.
  */
  lemma ChannelSafety(run: seq<Action>)
    requires Legal(NEW_CHANNEL, run)
    ensures Safe(Exec(NEW_CHANNEL, run))
  {
    NewChannelInv();
    RunKeepsInv(NEW_CHANNEL, run);
    InvIsSafe(Exec(NEW_CHANNEL, run));
  }

  // ---------------------------------------------------------------------------------------------------------
  // Once posting stops, the channel drains

  predicate QuietRun(run: seq<Action>) { forall i :: 0 <= i < |run| ==> !Posting(run[i]) }

  /** Work left: each eventfd count costs a delivery, a read, a final empty pop and a re-arm. */
  ghost function Work(c: Chan): nat
  {
    5 * c.count + |c.queue|
    + if SomeAt(c, Draining) then 5 else if SomeAt(c, ToRearm) then 4 else if SomeAt(c, ToRead) then 2 else 3
  }

  lemma QuietStepWorks(c: Chan, a: Action)
    requires Inv(c) && Enabled(c, a) && !Posting(a)
    ensures Work(Apply(c, a)) < Work(c)
  {
    var d := Apply(c, a);
    match a {
      case Deliver(w) => assert At(d, w, ToRead); assert !SomeAt(d, Draining) && !SomeAt(d, ToRearm);
      case ReadCount(w) => assert SomeAt(c, ToRead); assert !SomeAt(c, Draining) && !SomeAt(c, ToRearm);
        assert At(d, w, Draining);
      case Pop(w) => assert SomeAt(c, Draining);
        if c.queue == [] { assert At(d, w, ToRearm); assert !SomeAt(d, Draining); }
      case Rearm(w) => assert SomeAt(c, ToRearm); assert !SomeAt(c, Draining);
        assert !SomeAt(d, Draining) && !SomeAt(d, ToRearm) && !SomeAt(d, ToRead);
    }
  }

  /** What a quiet run has done so far, seen from its start. */
  ghost predicate Since(c: Chan, d: Chan)
  {
    && d.pushed == c.pushed && d.unwritten == c.unwritten && c.counted <= d.counted
    && (c.counted < d.counted ==> d.queue == [] || SomeAt(d, Draining))
  }

  lemma {:induction false} QuietRunDrains(c: Chan, now: Chan, run: seq<Action>)
    requires Inv(now) && Since(c, now) && Legal(now, run) && QuietRun(run)
    ensures Inv(Exec(now, run)) && Since(c, Exec(now, run))
    ensures |run| <= Work(now)
    decreases |run|
  {
    if run != [] {
      var next := Apply(now, run[0]);
      StepKeepsInv(now, run[0]);
      QuietStepWorks(now, run[0]);
      match run[0] {
        case Deliver(w) => assert !SomeAt(now, Draining);
        case ReadCount(w) => assert At(next, w, Draining);
        case Pop(w) => if now.queue != [] { assert At(next, w, Draining); }
        case Rearm(w) => assert !SomeAt(now, Draining);
      }
      QuietRunDrains(c, next, run[1..]);
    }
  }

  /**
    The drain measure.  From a channel at rest with eventfd count n, every run without posting is at most
    `Work(c)` steps long; its deliveries and completed reads never exceed n and each read lowers the count by
    one; the queue is empty once one handler has finished; and when no step is left, exactly n deliveries were
    made and queue and count are empty.
  */
  lemma DrainMeasure(c: Chan, run: seq<Action>)
    requires Inv(c) && c.phase == Published && c.handlers == map[] && c.unwritten == 0
    requires Legal(c, run) && QuietRun(run)
    ensures var d := Exec(c, run);
            && |run| <= Work(c)
            && c.count - d.count == d.counted - c.counted
            && d.deliveries - c.deliveries <= c.count
            && (d.armed && (d.counted > c.counted || c.count == 0) ==> d.queue == [])
            && ((forall a :: !Posting(a) ==> !Enabled(d, a)) ==>
                  d.deliveries - c.deliveries == c.count && d.queue == [] && d.count == 0 && d.armed)
  {
    QuietRunDrains(c, c, run);
    var d := Exec(c, run);
    assert !SomeAt(c, ToRead) && !SomeAt(c, Draining);
    if forall a :: !Posting(a) ==> !Enabled(d, a) {
      if d.handlers != map[] { var a := HandlerCanStep(d); }
      assert !Enabled(d, Deliver(0));
      assert !SomeAt(d, ToRead) && !SomeAt(d, Draining);
      PhaseStays(c, run);
    }
    if SomeAt(d, ToRead) { assert d.count > 0; }
    if d.armed { assert !SomeAt(d, Draining); }
  }

  lemma HandlerCanStep(c: Chan) returns (a: Action)
    requires c.handlers != map[]
    ensures Enabled(c, a) && !Posting(a)
  {
    var w :| w in c.handlers;
    match c.handlers[w] {
      case ToRead => a := ReadCount(w);
      case Draining => a := Pop(w);
      case ToRearm => a := Rearm(w);
    }
  }

  lemma {:induction false} PhaseStays(c: Chan, run: seq<Action>)
    requires Legal(c, run) && QuietRun(run)
    ensures Exec(c, run).phase == c.phase
    decreases |run|
  {
    if run != [] { PhaseStays(Apply(c, run[0]), run[1..]); }
  }

  // ---------------------------------------------------------------------------------------------------------
  // The channel as the object the source updates

  /**
    `_CustomEvent` with its eventfd and registration.  `handed` records what the handler was given.  While a
    handler runs, other threads may push and write: `arrivals[k]` are the posts that land before the k-th pop.
  */
  class CustomEvent {
    var queue: seq<nat>
    var eventCount: nat
    var armed: bool
    ghost var unwritten: nat     // posts that have pushed and not written: still to write, or the write failed
    ghost var pushed: seq<nat>
    ghost var handed: seq<nat>

    ghost predicate Valid()
      reads this
    {
      handed + queue == pushed && (queue != [] ==> eventCount > 0 || unwritten > 0)
    }

    constructor ()
      ensures Valid() && armed && pushed == [] && handed == [] && eventCount == 0 && unwritten == 0
    {
      queue, eventCount, armed, unwritten, pushed, handed := [], 0, true, 0, [], [];
    }

    /** The first half of `post_custom_event`. */
    method Push(datum: nat)
      requires Valid()
      modifies this`queue, this`pushed, this`unwritten
      ensures Valid() && pushed == old(pushed) + [datum] && queue == old(queue) + [datum] && unwritten == old(unwritten) + 1
    {
      queue := queue + [datum];
      pushed := pushed + [datum];
      unwritten := unwritten + 1;
      assert handed + queue == pushed;
    }

    /** The second half: 1 is written to the eventfd, or the write fails and the post stays half done. */
    method Write(succeeds: bool) returns (posted: bool)
      requires Valid() && unwritten > 0
      modifies this`eventCount, this`unwritten
      ensures Valid() && posted == succeeds
      ensures eventCount == old(eventCount) + One(posted) && unwritten == old(unwritten) - One(posted)
    {
      posted := succeeds;
      if posted {
        unwritten := unwritten - 1;
        eventCount := eventCount + 1;
      }
    }

    /**
      `post_custom_event`, at any time.  Between the push and the write a handler may run, if the event is armed and an
      earlier count is there: it takes this datum with the others.  Either way the datum is queued or handed out, once,
      and in order.
    */
    method PostCustomEvent(datum: nat, handled: bool, succeeds: bool) returns (posted: bool)
      requires Valid()
      modifies this
      ensures Valid() && armed == old(armed) && posted == succeeds && pushed == old(pushed) + [datum]
      ensures unwritten == old(unwritten) + One(!posted)
      ensures var ran := handled && old(armed) && old(eventCount) > 0;
              && eventCount == old(eventCount) + One(posted) - One(ran)
              && handed == if ran then pushed else old(handed)
    {
      Push(datum);
      if handled && armed && eventCount > 0 {
        armed := false;
        assert Valid();
        var pops := HandleEvent([]);
      }
      posted := Write(succeeds);
    }

    /** Posts by other threads while a handler is between two pops. */
    method Arrive(data: seq<nat>)
      requires handed + queue == pushed
      modifies this
      ensures handed + queue == pushed && pushed == old(pushed) + data && handed == old(handed)
      ensures eventCount == old(eventCount) + |data| && armed == old(armed) && unwritten == old(unwritten)
    {
      queue, pushed, eventCount := queue + data, pushed + data, eventCount + |data|;
    }

    /** One round of the drain: `try_pop`, and the handler on what it found. */
    method HandleNext() returns (datum: Option<nat>)
      requires handed + queue == pushed
      modifies this`queue, this`handed
      ensures handed + queue == pushed
      ensures datum == if old(queue) == [] then None else Some(old(queue)[0])
      ensures datum == None ==> queue == [] && handed == old(handed)
      ensures datum.Some? ==> queue == old(queue)[1..] && handed == old(handed) + [datum.value]
    {
      if queue == [] { return None; }
      assert handed + queue == (handed + [queue[0]]) + queue[1..];
      datum := Some(queue[0]);
      handed := handed + [queue[0]];
      queue := queue[1..];
    }

    /**
      `CustomEventRegistrationHandler::handle_event`, on a delivered (hence disarmed) event: one count is read,
      everything queued, and everything that arrives before the pop that finds nothing, is handed out in order.
    */
    method HandleEvent(arrivals: seq<seq<nat>>) returns (pops: nat)
      requires Valid() && !armed && eventCount > 0
      modifies this
      ensures Valid() && armed && queue == [] && handed == pushed && unwritten == old(unwritten)
      ensures pushed == old(pushed) + Flat(Upto(arrivals, pops)) && pops > 0
      ensures eventCount == old(eventCount) - 1 + |Flat(Upto(arrivals, pops))|
      ensures pops == |handed| - |old(handed)| + 1
    {
      hide Landed;
      eventCount := eventCount - 1;
      pops := 0;
      NoneYet(arrivals, pushed, eventCount);
      while true
        invariant handed + queue == pushed && !armed && unwritten == old(unwritten) && pops == |handed| - |old(handed)|
        invariant Landed(arrivals, pops, old(pushed), old(eventCount) - 1, pushed, eventCount)
        decreases if pops < |arrivals| then |arrivals| - pops else 0, |queue|
      {
        UptoNext(arrivals, pops, old(pushed), old(eventCount) - 1, pushed, eventCount);
        Arrive(Row(arrivals, pops));
        pops := pops + 1;
        var datum := HandleNext();
        if datum == None { break; }
      }
      assert handed + queue == handed;
      armed := true;
      LandedMeans(arrivals, pops, old(pushed), old(eventCount) - 1, pushed, eventCount);
    }
  }

  function Row(rows: seq<seq<nat>>, n: nat): seq<nat> { if n < |rows| then rows[n] else [] }

  /** The rows that have landed before the `n`-th pop is over. */
  function Upto(rows: seq<seq<nat>>, n: nat): seq<seq<nat>> { if n < |rows| then rows[..n] else rows }

  /** Queue history and eventfd after the posts of the first `n` rows. */
  predicate Landed(rows: seq<seq<nat>>, n: nat, pushed0: seq<nat>, count0: nat, pushed: seq<nat>, count: nat)
  {
    pushed == pushed0 + Flat(Upto(rows, n)) && count == count0 + |Flat(Upto(rows, n))|
  }

  lemma LandedMeans(rows: seq<seq<nat>>, n: nat, pushed0: seq<nat>, count0: nat, pushed: seq<nat>, count: nat)
    requires Landed(rows, n, pushed0, count0, pushed, count)
    ensures pushed == pushed0 + Flat(Upto(rows, n)) && count == count0 + |Flat(Upto(rows, n))|
  {
  }

  lemma NoneYet(rows: seq<seq<nat>>, pushed: seq<nat>, count: nat)
    ensures Landed(rows, 0, pushed, count, pushed, count)
  {
  }

  lemma UptoNext(rows: seq<seq<nat>>, n: nat, pushed0: seq<nat>, count0: nat, pushed: seq<nat>, count: nat)
    requires Landed(rows, n, pushed0, count0, pushed, count)
    ensures Landed(rows, n + 1, pushed0, count0, pushed + Row(rows, n), count + |Row(rows, n)|)
  {
    if n < |rows| {
      FlatSnoc(rows[..n], rows[n]);
      assert rows[..n + 1] == rows[..n] + [rows[n]];
      assert rows[..|rows|] == rows;
    }
  }
}
