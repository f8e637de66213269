/**
  Any number of read futures on clones of one stream (src/epoll/net.rs, src/epoll/mod.rs).  `Flow` is the stream with
  its reads as a value: what each poll, each arrival and each readiness event does to all of them.  The objects of
  `NetFutures` are driven beside it and agree with it after every step; conservation is proved of the value.
*/
module StreamReads {
  import opened Prelude
  import opened Interests
  import opened NetFutures

  /** What happens to a stream: a read is polled, data arrives, the kernel reports readiness and the handler runs. */
  datatype Step = PollRead(k: nat, current: nat, choice: Choice) | Arrive(data: seq<Byte>) | Report(events: Mask)

  /** A read: not yet waiting, waiting on an interest that may have fired, or over. */
  datatype Reading = Idle(capacity: nat) | Waiting(capacity: nat, fired: bool) | Over

  /**
    The stream: its reads, the bytes in the socket, the masks that are asked for, what the kernel is armed with, and
    what the reads that are over have handed out: bytes, or an error.
  */
  datatype Flow<R(==)> = Flow(
    readings: map<R, Reading>, incoming: seq<Byte>, masks: set<Mask>, armed: Option<Mask>, got: seq<seq<Byte>>, errors: seq<nat>)

  /** Everything the masks ask for. */
  ghost function Asked(masks: set<Mask>): Mask { set x: Flag | IsAsked(masks, x) }

  ghost predicate IsAsked(masks: set<Mask>, x: Flag) { exists m :: m in masks && x in m }

  function Woken(r: Reading, events: Mask): Reading { if r.Waiting? && Hit({READ}, events) then r.(fired := true) else r }

  /** One poll of read `r`. */
  ghost function Polled<R>(flow: Flow<R>, r: R, choice: Choice): Flow<R>
    requires r in flow.readings
  {
    var reading := flow.readings[r];
    if reading.Over? || (reading.Waiting? && !reading.fired) then flow
    else match choice
      case Receive(count) =>
        var n := Taking(count, reading.capacity, |flow.incoming|);
        flow.(readings := flow.readings[r := Over], incoming := flow.incoming[n..], got := flow.got + [flow.incoming[..n]])
      case Fail(errno) => flow.(readings := flow.readings[r := Over], errors := flow.errors + [errno])
      case Block =>
        if reading.Waiting? then flow
        else flow.(readings := flow.readings[r := Waiting(reading.capacity, false)], masks := flow.masks + {{READ}},
                   armed := if {READ} <= Asked(flow.masks) then flow.armed else Some(Asked(flow.masks) + {READ}))
  }

  /** A one-shot delivery, if the kernel is armed for the word, and its handler. */
  ghost function Reported<R>(flow: Flow<R>, events: Mask): Flow<R>
  {
    if flow.armed.Some? && Reportable(flow.armed.value, events) then
      var kept := set m | m in flow.masks && !Hit(m, events);
      flow.(readings := map r | r in flow.readings :: Woken(flow.readings[r], events), masks := kept,
            armed := if kept == {} then None else Some(Asked(kept)))
    else flow
  }

  ghost function Next<R>(flow: Flow<R>, who: seq<R>, step: Step): Flow<R>
    requires forall r :: r in who ==> r in flow.readings
  {
    match step
    case PollRead(k, _, choice) => if k < |who| then Polled(flow, who[k], choice) else flow
    case Arrive(data) => flow.(incoming := flow.incoming + data)
    case Report(events) => Reported(flow, events)
  }

  ghost function Through<R>(flow: Flow<R>, who: seq<R>, steps: seq<Step>): (end: Flow<R>)
    requires forall r :: r in who ==> r in flow.readings
    ensures end.readings.Keys == flow.readings.Keys
  {
    if steps == [] then flow else Next(Through(flow, who, steps[..|steps| - 1]), who, steps[|steps| - 1])
  }

  function Arrived(steps: seq<Step>): seq<Byte>
  {
    if steps == [] then [] else
      Arrived(steps[..|steps| - 1]) + if steps[|steps| - 1].Arrive? then steps[|steps| - 1].data else []
  }

  lemma NextConserves<R>(flow: Flow<R>, who: seq<R>, step: Step)
    requires forall r :: r in who ==> r in flow.readings
    ensures var next := Next(flow, who, step);
            Flat(next.got) + next.incoming == Flat(flow.got) + flow.incoming + if step.Arrive? then step.data else []
  {
    var next := Next(flow, who, step);
    if step.Arrive? {
      Assoc(Flat(flow.got), flow.incoming, step.data);
    } else if next.got != flow.got {
      var n := |flow.incoming| - |next.incoming|;
      FlatSnoc(flow.got, flow.incoming[..n]);
      Assoc(Flat(flow.got), flow.incoming[..n], next.incoming);
    }
  }

  /**
    Stream conservation: however the polls of any number of reads interleave with arriving data and with readiness
    events, what the completed reads hand out, put together in the order of completion, is a prefix of what came in,
    and the rest is still in the socket.
  */
  lemma {:induction false} Conservation<R>(flow: Flow<R>, who: seq<R>, steps: seq<Step>)
    requires forall r :: r in who ==> r in flow.readings
    ensures var end := Through(flow, who, steps);
            Flat(end.got) + end.incoming == Flat(flow.got) + flow.incoming + Arrived(steps)
  {
    if steps != [] {
      var front, last := steps[..|steps| - 1], steps[|steps| - 1];
      Conservation(flow, who, front);
      NextConserves(Through(flow, who, front), who, last);
      Assoc(Flat(flow.got) + flow.incoming, Arrived(front), if last.Arrive? then last.data else []);
    }
  }

  // ---------------------------------------------------------------------------------------------------------
  // The objects beside the value

  ghost function MasksOf<T>(list: seq<Entry<T>>): set<Mask> { set e | e in list :: e.mask }

  lemma UnionIsAsked<T>(list: seq<Entry<T>>)
    ensures Union(list) == Asked(MasksOf(list))
  {
    forall x ensures x in Union(list) <==> x in Asked(MasksOf(list)) {
      UnionHolds(list, x);
      if x in Asked(MasksOf(list)) {
        var m :| m in MasksOf(list) && x in m;
        var e :| e in list && e.mask == m;
        var k :| 0 <= k < |list| && list[k] == e;
      }
      if k :| 0 <= k < |list| && x in list[k].mask {
        assert list[k] in list && list[k].mask in MasksOf(list) && x in list[k].mask;
      }
    }
  }

  ghost predicate Belongs(stream: TcpStream, r: TcpRead)
    reads r, stream.registration
  {
    r.state.Pending? ==>
      && r.state.stream == stream && BufferOK(r.state.buffer) && r.Awaited() <= stream.registration.added
      && forall k :: 0 <= k < |stream.registration.interests| && stream.registration.interests[k].who in r.Awaited() ==>
           stream.registration.interests[k].mask == {READ}
  }

  /** The read futures belong to the stream and are in order. */
  ghost predicate Served(stream: TcpStream, futures: seq<TcpRead>)
    reads stream, stream.registration, stream.registration.added, set r | r in futures
  {
    && stream.registration.Valid() && stream.registration.Agrees()
    && forall r :: r in futures ==> Belongs(stream, r)
  }

  ghost function ReadingOf(r: TcpRead): Reading
    reads r, r.Awaited()
  {
    if r.state == Taken then Over
    else if r.state.interest == None then Idle(|r.state.buffer.memory|)
    else Waiting(|r.state.buffer.memory|, r.state.interest.value.fired)
  }

  ghost function FlowOf(stream: TcpStream, futures: seq<TcpRead>, got: seq<seq<Byte>>, errors: seq<nat>): (flow: Flow<TcpRead>)
    reads stream, stream.registration, set r | r in futures, set r, x | r in futures && x in r.Awaited() :: x
    ensures flow.readings.Keys == set r | r in futures
  {
    Flow(map r | r in futures :: ReadingOf(r), stream.incoming, MasksOf(stream.registration.interests), stream.registration.armed,
         got, errors)
  }

  lemma MasksSnoc<T>(list: seq<Entry<T>>, e: Entry<T>)
    ensures MasksOf(list + [e]) == MasksOf(list) + {e.mask}
  {
    forall m ensures m in MasksOf(list + [e]) <==> m in MasksOf(list) + {e.mask} {
      if m in MasksOf(list) { var x :| x in list && x.mask == m; assert x in list + [e]; }
      assert e in list + [e];
    }
  }

  /** The reading of a read after a poll with that result. */
  function ReadAfter(reading: Reading, result: PollResult): Reading
  {
    if !result.NotReady? then Over else if reading.Idle? then Waiting(reading.capacity, false) else reading
  }

  /** `Poll` seen from all the reads: the one polled moves on, the others stay. */
  method PollAmong(stream: TcpStream, futures: seq<TcpRead>, r: TcpRead, current: nat, choice: Choice) returns (result: PollResult)
    requires Served(stream, futures) && r in futures
    modifies (set x | x in futures), stream, stream.registration, stream.registration.added
    ensures Served(stream, futures) && fresh(stream.registration.added - old(stream.registration.added))
    ensures forall x :: x in futures && x != r ==> ReadingOf(x) == old(ReadingOf(x))
    ensures result.NotReady? ==> r.state.Pending? && r.state.interest.Some?
    ensures var reading, list := old(ReadingOf(r)), old(stream.registration.interests);
            var waits := reading.Waiting? && !reading.fired;
            && ReadingOf(r) == ReadAfter(reading, result)
            && (result == Panic <==> reading == Over)
            && (result.NotReady? <==> reading != Over && (waits || choice == Block))
            && (result.Ready? <==> reading != Over && !waits && choice.Receive?)
            && (result.Error? ==> choice.Fail? && result.errno == choice.errno)
            && stream.registration.interests == (if result.NotReady? && reading.Idle?
                                                 then list + [Entry({READ}, r.state.interest.value)] else list)
            && stream.registration.armed == (if result.NotReady? && reading.Idle? && !({READ} <= Union(list))
                                             then Some(Union(list) + {READ}) else old(stream.registration.armed))
            && (result.Ready? ==> Handed(result, reading.capacity, choice.count, old(stream.incoming), stream.incoming))
            && (!result.Ready? ==> stream.incoming == old(stream.incoming))
  {
    hide Filled, Contents, Union, Lists, FuturesRegistration.Valid, FuturesRegistration.Agrees;
    assert Belongs(stream, r);
    ghost var list := stream.registration.interests;
    ListedWereAdded(stream.registration);
    result := r.Poll(current, choice);
    assert forall e :: e in stream.registration.interests ==> e in list || e.mask == {READ};
    forall x | x in futures ensures Belongs(stream, x) {
      assert x != r ==> old(Belongs(stream, x)) && x.state == old(x.state);
      forall k | 0 <= k < |stream.registration.interests| && stream.registration.interests[k].who in x.Awaited()
        ensures stream.registration.interests[k].mask == {READ}
      {
        if stream.registration.interests[k] in list {
          var j :| 0 <= j < |list| && list[j] == stream.registration.interests[k];
          assert x.Awaited() == old(x.Awaited());
        }
      }
    }
    if result.Ready? { HandedOver(old(r.state).buffer, result, choice.count, old(stream.incoming)); }
  }

  lemma ListedWereAdded(registration: FuturesRegistration)
    requires registration.Valid()
    ensures forall e :: e in registration.interests ==> e.who in registration.added
  {
  }

  /** A completed read hands out the front of what was there, as much as `recv` takes. */
  ghost predicate Handed(result: PollResult, capacity: nat, count: nat, incoming: seq<Byte>, incoming': seq<Byte>)
  {
    && result.Ready? && BufferOK(result.buffer) && result.count == Taking(count, capacity, |incoming|)
    && result.count <= |Contents(result.buffer)| && Contents(result.buffer)[..result.count] == incoming[..result.count]
    && incoming' == incoming[result.count..]
  }

  lemma HandedOver(buffer: Buffer, result: PollResult, count: nat, incoming: seq<Byte>)
    requires result.Ready? && BufferOK(buffer) && result.count == Taking(count, |buffer.memory|, |incoming|)
    requires result.buffer == Filled(buffer, incoming[..result.count])
    ensures Handed(result, |buffer.memory|, count, incoming, incoming[result.count..])
  {
    FilledContents(buffer, incoming[..result.count]);
  }

  /** One poll of one read: bytes or an error for its owner if it is over, and nothing else but what `Polled` says. */
  method PollOne(stream: TcpStream, futures: seq<TcpRead>, k: nat, current: nat, choice: Choice)
    returns (got: seq<seq<Byte>>, errors: seq<nat>)
    requires Served(stream, futures) && k < |futures|
    modifies (set x | x in futures), stream, stream.registration, stream.registration.added
    ensures Served(stream, futures) && fresh(stream.registration.added - old(stream.registration.added))
    ensures FlowOf(stream, futures, got, errors) == Polled(old(FlowOf(stream, futures, [], [])), futures[k], choice)
  {
    hide Served, Union, Asked, MasksOf, ReadingOf;
    ghost var list, before := stream.registration.interests, FlowOf(stream, futures, [], []);
    var result := PollAmong(stream, futures, futures[k], current, choice);
    got := if result.Ready? then [Contents(result.buffer)[..result.count]] else [];
    errors := if result.Error? then [result.errno] else [];
    UnionIsAsked(list);
    if stream.registration.interests != list { MasksSnoc(list, Entry({READ}, futures[k].state.interest.value)); }
    ghost var after := FlowOf(stream, futures, got, errors);
    assert after.readings == Polled(before, futures[k], choice).readings;
  }

  lemma SplitMasks<T>(list: seq<Entry<T>>, events: Mask, kept: seq<Entry<T>>, hits: seq<Entry<T>>)
    requires Split(list, events, kept, hits)
    ensures MasksOf(kept) == set m | m in MasksOf(list) && !Hit(m, events)
    ensures (forall e :: e in kept ==> e in list && !Hit(e.mask, events)) && (forall e :: e in list && !Hit(e.mask, events) ==> e in kept)
  {
    forall e | e in kept ensures e in list { assert e in multiset(list); }
    forall e | e in list && !Hit(e.mask, events) ensures e in kept { assert e in multiset(list); assert e !in multiset(hits); }
    forall m ensures m in MasksOf(kept) <==> m in MasksOf(list) && !Hit(m, events) {
      if m in MasksOf(list) && !Hit(m, events) { var e :| e in list && e.mask == m; assert e in kept; }
      if m in MasksOf(kept) { var e :| e in kept && e.mask == m; assert e in list; }
    }
  }

  /** A delivered event fires the interest of a read exactly if it hits READ. */
  lemma AwaitedIsHit(registration: FuturesRegistration, list: seq<Entry<FutureInterest>>, events: Mask, x: FutureInterest)
    requires registration.Valid() && x in registration.added
    requires forall e :: e in registration.interests ==> e in list && !Hit(e.mask, events)
    requires forall e :: e in list && !Hit(e.mask, events) ==> e in registration.interests
    requires forall e :: e in list && e.who == x ==> e.mask == {READ}
    requires Lists(list, x)
    ensures x.fired <==> Hit({READ}, events)
  {
    registration.ListedIffUnfired(x);
    var k :| 0 <= k < |list| && list[k].who == x;
    assert list[k] in list;
    if !Hit({READ}, events) {
      var j :| 0 <= j < |registration.interests| && registration.interests[j] == list[k];
    }
    if Lists(registration.interests, x) {
      var j :| 0 <= j < |registration.interests| && registration.interests[j].who == x;
      assert registration.interests[j] in list;
    }
  }

  /** A one-shot delivery and its handler, if the registration is armed for it. */
  method ReportEvents(stream: TcpStream, futures: seq<TcpRead>, events: Mask)
    requires Served(stream, futures)
    modifies stream.registration, stream.registration.added
    ensures Served(stream, futures) && stream.registration.added == old(stream.registration.added)
    ensures FlowOf(stream, futures, [], []) == Reported(old(FlowOf(stream, futures, [], [])), events)
  {
    var registration := stream.registration;
    ghost var list, before := registration.interests, FlowOf(stream, futures, [], []);
    if registration.armed.Some? && Reportable(registration.armed.value, events) {
      Deliver(stream, futures, events);
      UnionIsAsked(registration.interests);
      assert FlowOf(stream, futures, [], []).readings == Reported(before, events).readings;
      assert registration.interests == [] <==> MasksOf(registration.interests) == {} by {
        if registration.interests != [] { assert registration.interests[0].mask in MasksOf(registration.interests); }
      }
    } else {
      assert FlowOf(stream, futures, [], []).readings == before.readings;
    }
  }

  method Deliver(stream: TcpStream, futures: seq<TcpRead>, events: Mask)
    requires Served(stream, futures) && stream.registration.armed.Some? && Reportable(stream.registration.armed.value, events)
    modifies stream.registration, stream.registration.added
    ensures Served(stream, futures) && stream.registration.added == old(stream.registration.added)
    ensures forall r :: r in futures ==> ReadingOf(r) == Woken(old(ReadingOf(r)), events)
    ensures MasksOf(stream.registration.interests) == set m | m in old(MasksOf(stream.registration.interests)) && !Hit(m, events)
    ensures stream.registration.armed
            == if stream.registration.interests == [] then None else Some(Union(stream.registration.interests))
  {
    hide Union, Reportable, MasksOf, Split, Lists, Hit, FuturesRegistration.Valid, FuturesRegistration.Agrees;
    var registration := stream.registration;
    ghost var list := registration.interests;
    WaitingAreListed(stream, futures);
    var notified, hits := registration.OneShot(events);
    SplitMasks(list, events, registration.interests, hits);
    forall r | r in futures ensures ReadingOf(r) == Woken(old(ReadingOf(r)), events) && Belongs(stream, r) {
      assert old(Belongs(stream, r));
      if r.state.Pending? && r.state.interest.Some? && !old(r.state.interest.value.fired) {
        AwaitedIsHit(registration, list, events, r.state.interest.value);
      }
    }
  }

  lemma WaitingAreListed(stream: TcpStream, futures: seq<TcpRead>)
    requires Served(stream, futures)
    ensures forall r :: r in futures && ReadingOf(r).Waiting? && !ReadingOf(r).fired ==>
              Lists(stream.registration.interests, r.state.interest.value)
  {
    forall r | r in futures && ReadingOf(r).Waiting? && !ReadingOf(r).fired
      ensures Lists(stream.registration.interests, r.state.interest.value)
    {
      assert Belongs(stream, r);
    }
  }

  // ---------------------------------------------------------------------------------------------------------
  // The drive

  lemma Appended<R>(flow: Flow<R>, who: seq<R>, step: Step)
    requires forall r :: r in who ==> r in flow.readings
    ensures var bare := Next(flow.(got := [], errors := []), who, step);
            Next(flow, who, step) == bare.(got := flow.got + bare.got, errors := flow.errors + bare.errors)
  {
  }

  /** One step of the objects is one step of the value. */
  method Take(stream: TcpStream, futures: seq<TcpRead>, step: Step) returns (got: seq<seq<Byte>>, errors: seq<nat>)
    requires Served(stream, futures)
    modifies (set x | x in futures), stream, stream.registration, stream.registration.added
    ensures Served(stream, futures) && fresh(stream.registration.added - old(stream.registration.added))
    ensures FlowOf(stream, futures, got, errors) == Next(old(FlowOf(stream, futures, [], [])), futures, step)
  {
    got, errors := [], [];
    match step {
      case PollRead(k, current, choice) =>
        if k < |futures| { got, errors := PollOne(stream, futures, k, current, choice); }
      case Arrive(data) =>
        stream.incoming := stream.incoming + data;
      case Report(events) =>
        ReportEvents(stream, futures, events);
    }
  }

  /**
    Whatever the steps, the objects end where the value does: the reads that are over, the bytes and errors they have
    handed out, what is left in the socket, and what the kernel is armed for are a function of the steps and the start.
  */
  method Drive(stream: TcpStream, futures: seq<TcpRead>, steps: seq<Step>) returns (got: seq<seq<Byte>>, errors: seq<nat>)
    requires Served(stream, futures)
    modifies (set x | x in futures), stream, stream.registration, stream.registration.added
    ensures Served(stream, futures)
    ensures FlowOf(stream, futures, got, errors) == Through(old(FlowOf(stream, futures, [], [])), futures, steps)
    ensures Flat(got) + stream.incoming == old(stream.incoming) + Arrived(steps)
  {
    hide Served, Next;
    ghost var start := FlowOf(stream, futures, [], []);
    got, errors := [], [];
    for n := 0 to |steps|
      invariant Served(stream, futures) && fresh(stream.registration.added - old(stream.registration.added))
      invariant FlowOf(stream, futures, got, errors) == Through(start, futures, steps[..n])
    {
      assert steps[..n + 1][..n] == steps[..n];
      Appended(FlowOf(stream, futures, got, errors), futures, steps[n]);
      var more, failed := Take(stream, futures, steps[n]);
      got, errors := got + more, errors + failed;
    }
    assert steps[..|steps|] == steps;
    Conservation(start, futures, steps);
  }
}
