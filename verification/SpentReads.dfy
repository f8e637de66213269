/**
  A limit of the read future (src/epoll/net.rs:233-238): a read whose interest has fired and that meets WouldBlock
  again registers on that fired, delisted interest, and is never notified any more.
*/
module SpentReads {
  import opened Prelude
  import opened Interests
  import opened NetFutures

  /** The read is pending on an interest of its stream that has fired and left the table. */
  ghost predicate Spent(stream: TcpStream, r: TcpRead)
    reads r, stream, stream.registration, stream.registration.added
  {
    Awaits(stream, r) && r.state.interest.value.fired && !Lists(stream.registration.interests, r.state.interest.value)
  }

  /** A read of one byte that waits on an interest. */
  ghost predicate Awaits(stream: TcpStream, r: TcpRead)
    reads r, stream, stream.registration
  {
    && r.state.Pending? && r.state.stream == stream && r.state.interest.Some? && BufferOK(r.state.buffer)
    && r.state.interest.value in stream.registration.added && |r.state.buffer.memory| == 1
  }

  /** Every interest asks for READ, and no delivery is between kernel and lock. */
  ghost predicate OnlyReaders(registration: FuturesRegistration)
    reads registration, registration.added
  {
    && registration.Valid() && registration.Agrees() && registration.pending == multiset{}
    && forall k :: 0 <= k < |registration.interests| ==> registration.interests[k].mask == {READ}
  }

  /** The table is armed for READ as long as anybody waits. */
  lemma ArmedForRead(registration: FuturesRegistration)
    requires OnlyReaders(registration) && registration.interests != []
    ensures registration.armed == Some({READ})
  {
    forall x ensures x in Union(registration.interests) <==> x in {READ} {
      UnionHolds(registration.interests, x);
      assert registration.interests[0].mask == {READ};
    }
    assert Union(registration.interests) == {READ};
  }

  method NewStream() returns (stream: TcpStream)
    ensures OnlyReaders(stream.registration) && fresh(stream) && fresh(stream.registration) && stream.registration.added == {}
    ensures stream.registration.interests == []
  {
    stream := new TcpStream();
  }

  /** A new read on the stream that meets WouldBlock: one more interest, for which the kernel is armed. */
  method StartRead(stream: TcpStream, current: nat) returns (r: TcpRead)
    requires OnlyReaders(stream.registration)
    modifies stream, stream.registration`interests, stream.registration`armed, stream.registration`added
    ensures OnlyReaders(stream.registration) && Awaits(stream, r) && fresh(r)
    ensures |stream.registration.interests| == |old(stream.registration.interests)| + 1 && stream.incoming == old(stream.incoming)
    ensures old(stream.registration.added) <= stream.registration.added
    ensures fresh(stream.registration.added - old(stream.registration.added))
    ensures forall x :: x in old(stream.registration.added) ==> x.fired == old(x.fired)
  {
    hide FuturesRegistration.Valid, FuturesRegistration.Agrees, Lists, Filled;
    r := new TcpRead(stream, Buffer([0], 0));
    var result := r.Poll(current, Block);
  }

  /** The kernel reports `events`, if it is armed for them, and the handler fires the interests they hit. */
  method Report(registration: FuturesRegistration, events: Mask) returns (ghost fired: seq<FutureInterest>)
    requires OnlyReaders(registration)
    modifies registration`interests, registration`armed, registration`pending, registration.added`fired
    ensures OnlyReaders(registration) && |fired| + |registration.interests| == |old(registration.interests)|
    ensures forall x :: x in fired ==> x in registration.added && !old(x.fired) && x.fired
    ensures forall x :: x in registration.added && old(x.fired) ==> x.fired
    ensures events == {READ} ==> registration.interests == []
  {
    fired := [];
    if registration.interests != [] { ArmedForRead(registration); }
    assert READ in {READ};
    if registration.armed.Some? && Reportable(registration.armed.value, events) {
      hide OnlyReaders;
      fired := Handle(registration, events);
    }
  }

  method Handle(registration: FuturesRegistration, events: Mask) returns (ghost fired: seq<FutureInterest>)
    requires OnlyReaders(registration) && registration.armed.Some? && Reportable(registration.armed.value, events)
    modifies registration`interests, registration`armed, registration`pending, registration.added`fired
    ensures OnlyReaders(registration) && |fired| + |registration.interests| == |old(registration.interests)|
    ensures forall x :: x in fired ==> x in registration.added && !old(x.fired) && x.fired
    ensures forall x :: x in registration.added && old(x.fired) ==> x.fired
    ensures events == {READ} ==> registration.interests == []
  {
    ghost var list := registration.interests;
    assert forall e :: e in list ==> e.who in registration.added && !e.who.fired;
    hide FuturesRegistration.Valid, FuturesRegistration.Agrees, Split, Reportable;
    var notified, hits := registration.OneShot(events);
    Delivered(list, events, registration.interests, hits);
    fired := seq(|hits|, k requires 0 <= k < |hits| => hits[k].who);
    forall k | 0 <= k < |hits| ensures !old(hits[k].who.fired) && hits[k].who in registration.added { assert hits[k] in list; }
  }

  lemma Delivered<T>(list: seq<Entry<T>>, events: Mask, kept: seq<Entry<T>>, hits: seq<Entry<T>>)
    requires Split(list, events, kept, hits) && forall k :: 0 <= k < |list| ==> list[k].mask == {READ}
    ensures |kept| + |hits| == |list| && (forall e :: e in hits ==> e in list)
    ensures forall k :: 0 <= k < |kept| ==> kept[k].mask == {READ}
    ensures events == {READ} ==> kept == []
  {
    assert |multiset(kept) + multiset(hits)| == |multiset(list)|;
    forall e | e in hits ensures e in list { assert e in multiset(list); }
    forall k | 0 <= k < |kept| ensures kept[k].mask == {READ} { assert kept[k] in multiset(list); }
    if events == {READ} { SplitAllHit(list, events, kept, hits); }
  }

  /** A read whose interest has fired takes the byte that is there. */
  method FinishRead(stream: TcpStream, r: TcpRead, current: nat) returns (taken: seq<Byte>)
    requires Awaits(stream, r) && r.state.interest.value.fired && OnlyReaders(stream.registration)
    requires stream.registration.interests == [] && |stream.incoming| == 1
    modifies r, stream, stream.registration`interests, stream.registration`armed, stream.registration`added, stream.registration.added`task
    ensures taken == old(stream.incoming) && stream.incoming == [] && r.state == Taken && OnlyReaders(stream.registration)
    ensures stream.registration.added == old(stream.registration.added) && stream.registration.interests == []
  {
    var result := r.Poll(current, Receive(1));
    FilledContents(old(r.state).buffer, old(stream.incoming)[..result.count]);
    taken := Contents(result.buffer)[..result.count];
  }

  /** A read whose interest has fired meets WouldBlock: it stays pending, on an interest that is spent. */
  method MeetWouldBlock(stream: TcpStream, r: TcpRead, current: nat)
    requires Awaits(stream, r) && r.state.interest.value.fired && OnlyReaders(stream.registration)
    modifies r, stream, stream.registration`interests, stream.registration`armed, stream.registration`added, stream.registration.added`task
    ensures Spent(stream, r) && OnlyReaders(stream.registration) && stream.incoming == old(stream.incoming)
    ensures r.state.interest == old(r.state).interest && r.state.interest.value.task == current
    ensures stream.registration.added == old(stream.registration.added)
    ensures stream.registration.interests == old(stream.registration.interests)
  {
    var result := r.Poll(current, Block);
  }

  /** The run: two reads wait, one byte arrives, both interests fire, the first read takes the byte. */
  method SecondReadIsSpent(byte: Byte) returns (stream: TcpStream, late: TcpRead, taken: seq<Byte>)
    ensures taken == [byte] && Spent(stream, late) && OnlyReaders(stream.registration) && stream.registration.interests == []
    ensures fresh(stream) && fresh(late) && fresh(stream.registration) && fresh(stream.registration.added)
    ensures stream.incoming == [] && late.state.interest.value.task == 2
  {
    hide OnlyReaders, Spent, FuturesRegistration.Valid, FuturesRegistration.Agrees;
    stream := NewStream();
    var early := StartRead(stream, 1);
    late := StartRead(stream, 2);
    stream.incoming := [byte];
    ghost var fired := Report(stream.registration, {READ});
    NobodyWaits(stream.registration);
    taken := FinishRead(stream, early, 1);
    MeetWouldBlock(stream, late, 2);
  }

  lemma NobodyWaits(registration: FuturesRegistration)
    requires OnlyReaders(registration) && registration.interests == []
    ensures forall x :: x in registration.added ==> x.fired
  {
    forall x | x in registration.added ensures x.fired { registration.ListedIffUnfired(x); }
  }

  /** What happens afterwards: further reads start, data arrives, events are reported, the stranded read is polled by chance. */
  datatype Later = Another(current: nat) | Arrival(data: seq<Byte>) | Reported(events: Mask) | LatePoll(current: nat)

  function Started(later: seq<Later>): nat
  {
    if later == [] then 0 else Started(later[..|later| - 1]) + One(later[|later| - 1].Another?)
  }

  /** What has come in since; nobody is there to take it. */
  function ArrivedLater(later: seq<Later>): seq<Byte>
  {
    if later == [] then [] else
      ArrivedLater(later[..|later| - 1]) + if later[|later| - 1].Arrival? then later[|later| - 1].data else []
  }

  /** The task that polled the stranded read last. */
  function LatestPoller(later: seq<Later>): nat
  {
    if later == [] then 2 else if later[|later| - 1].LatePoll? then later[|later| - 1].current else LatestPoller(later[..|later| - 1])
  }

  /** One of them; the stranded read stays as it is. */
  method Continue(stream: TcpStream, late: TcpRead, step: Later) returns (ghost fired: seq<FutureInterest>)
    requires Spent(stream, late) && OnlyReaders(stream.registration)
    modifies late, stream, stream.registration, stream.registration.added
    ensures Spent(stream, late) && OnlyReaders(stream.registration) && late.state.interest == old(late.state).interest
    ensures fresh(stream.registration.added - old(stream.registration.added))
    ensures |fired| + |stream.registration.interests| == |old(stream.registration.interests)| + One(step.Another?)
    ensures late.state.interest.value !in fired
    ensures step == Reported({READ}) ==> stream.registration.interests == []
    ensures stream.incoming == old(stream.incoming) + if step.Arrival? then step.data else []
    ensures late.state.interest.value.task == if step.LatePoll? then step.current else old(late.state.interest.value.task)
  {
    fired := [];
    match step {
      case Another(current) => var r := StartRead(stream, current);
      case Arrival(data) => stream.incoming := stream.incoming + data;
      case Reported(events) => fired := Report(stream.registration, events);
      case LatePoll(current) => MeetWouldBlock(stream, late, current);
    }
    stream.registration.ListedIffUnfired(late.state.interest.value);
  }

  /**
    The second read is stranded.  Whatever is started, arrives and is reported afterwards, and however often it is
    polled while nothing is there for it, its interest is not among the ones that fire; every other read started on
    the stream is fired by the deliveries, one for one, except those still listed.
  */
  method SecondReadIsStranded(byte: Byte, later: seq<Later>)
    returns (stream: TcpStream, late: TcpRead, taken: seq<Byte>, ghost fired: seq<FutureInterest>)
    ensures taken == [byte] && Spent(stream, late) && OnlyReaders(stream.registration)
    ensures late.state.interest.value !in fired && |fired| + |stream.registration.interests| == Started(later)
    ensures later != [] && later[|later| - 1] == Reported({READ}) ==> |fired| == Started(later)
    ensures stream.incoming == ArrivedLater(later) && late.state.interest.value.task == LatestPoller(later)
  {
    hide OnlyReaders, FuturesRegistration.Valid, FuturesRegistration.Agrees;
    stream, late, taken := SecondReadIsSpent(byte);
    fired := [];
    for n := 0 to |later|
      invariant Spent(stream, late) && OnlyReaders(stream.registration) && fresh(stream) && fresh(late)
      invariant fresh(stream.registration) && fresh(stream.registration.added)
      invariant late.state.Pending? && late.state.interest.Some? && late.state.interest.value !in fired
      invariant |fired| + |stream.registration.interests| == Started(later[..n])
      invariant stream.incoming == ArrivedLater(later[..n]) && late.state.interest.value.task == LatestPoller(later[..n])
      invariant n > 0 && later[n - 1] == Reported({READ}) ==> stream.registration.interests == []
    {
      assert later[..n + 1][..n] == later[..n];
      ghost var more := Continue(stream, late, later[n]);
      fired := fired + more;
    }
    assert later[..|later|] == later;
  }
}
