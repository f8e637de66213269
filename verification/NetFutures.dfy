/**
  The read future of a TCP stream on the epoll backend (src/epoll/net.rs): `poll` takes its state out, waits on its
  interest, receives into the front of its buffer, and puts the state back only when it is still pending.
*/
module NetFutures {
  import opened Prelude
  import opened Interests

  type Byte = x: int | 0 <= x < 256

  /** `BytesMut`: the allocation, of which the first `len` bytes are the contents. */
  datatype Buffer = Buffer(memory: seq<Byte>, len: nat)

  predicate BufferOK(b: Buffer) { b.len <= |b.memory| }

  function Contents(b: Buffer): seq<Byte>
    requires BufferOK(b)
  {
    b.memory[..b.len]
  }

  /** `recv` wrote `data` to the front of the allocation; the length grows if that went past it. */
  function Filled(b: Buffer, data: seq<Byte>): Buffer
    requires |data| <= |b.memory|
  {
    Buffer(data + b.memory[|data|..], if |data| > b.len then |data| else b.len)
  }

  /** The data is in front, old bytes beyond it are kept, and the length is the larger of the two. */
  lemma FilledContents(b: Buffer, data: seq<Byte>)
    requires BufferOK(b) && |data| <= |b.memory|
    ensures BufferOK(Filled(b, data)) && |Filled(b, data).memory| == |b.memory|
    ensures Contents(Filled(b, data)) == data + if |data| < b.len then Contents(b)[|data|..] else []
  {
  }

  /** What the kernel makes of a `recv`: so many bytes (none at the end of the stream), or an error. */
  datatype Choice = Receive(count: nat) | Block | Fail(errno: nat)

  datatype Reply = Bytes(data: seq<Byte>) | WouldBlock | Failed(errno: nat)

  /** A `recv` takes what is there, up to the capacity and to what the kernel hands out at once. */
  function Taking(count: nat, capacity: nat, available: nat): (n: nat)
    ensures n <= count && n <= capacity && n <= available && (n == count || n == capacity || n == available)
  {
    var upto := if available <= capacity then available else capacity;
    if count <= upto then count else upto
  }

  /** `_TcpStream`; `incoming` is the socket's receive queue, `received` all that was ever taken from it. */
  class TcpStream {
    const registration: FuturesRegistration
    var incoming: seq<Byte>
    ghost var received: seq<Byte>

    constructor ()
      ensures incoming == [] && received == [] && registration.Valid() && registration.Agrees()
      ensures fresh(registration) && registration.added == {} && registration.interests == [] && registration.pending == multiset{}
    {
      registration := new FuturesRegistration();
      incoming, received := [], [];
    }

    method Recv(capacity: nat, choice: Choice) returns (reply: Reply)
      modifies this`incoming, this`received
      ensures reply.Bytes? ==>
                && choice.Receive? && |reply.data| == Taking(choice.count, capacity, |old(incoming)|)
                && reply.data == old(incoming)[..|reply.data|]
                && incoming == old(incoming)[|reply.data|..] && received == old(received) + reply.data
      ensures !reply.Bytes? ==> incoming == old(incoming) && received == old(received)
      ensures (choice.Receive? <==> reply.Bytes?) && (choice.Block? <==> reply == WouldBlock)
      ensures choice.Fail? ==> reply == Failed(choice.errno)
    {
      match choice {
        case Receive(count) =>
          var n := Taking(count, capacity, |incoming|);
          reply := Bytes(incoming[..n]);
          received := received + incoming[..n];
          incoming := incoming[n..];
        case Block => reply := WouldBlock;
        case Fail(errno) => reply := Failed(errno);
      }
    }
  }

  datatype ReadState = Pending(stream: TcpStream, buffer: Buffer, interest: Option<FutureInterest>) | Taken

  datatype PollResult = Ready(stream: TcpStream, buffer: Buffer, count: nat) | NotReady | Error(errno: nat) | Panic

  /** After WouldBlock: the interest there is, registered on again, or a new one for READ. */
  method Await(registration: FuturesRegistration, interest: Option<FutureInterest>, current: nat) returns (kept: FutureInterest)
    requires registration.Valid() && registration.Agrees() && (interest.Some? ==> interest.value in registration.added)
    modifies (if interest.Some? then {interest.value} else {})`task
    modifies registration`interests, registration`armed, registration`added
    ensures registration.Valid() && registration.Agrees() && kept.task == current && kept in registration.added
    ensures old(registration.added) <= registration.added && fresh(registration.added - old(registration.added))
    ensures if interest.Some?
            then kept == interest.value && registration.interests == old(registration.interests) && registration.added == old(registration.added)
            else registration.interests == old(registration.interests) + [Entry({READ}, kept)] && !kept.fired
    ensures registration.armed == if interest == None && !({READ} <= Union(old(registration.interests)))
                                  then Some(Union(old(registration.interests)) + {READ}) else old(registration.armed)
    ensures interest == None ==> fresh(kept)
    ensures forall x :: x in old(registration.added) ==> x.fired == old(x.fired)
    ensures Lists(registration.interests, kept) <==> !kept.fired
  {
    if interest.Some? {
      kept := interest.value;
      kept.Register(current);
    } else {
      ghost var list := registration.interests;
      kept := registration.AddInterest({READ}, current);
      UnionSnoc(list, Entry({READ}, kept));
    }
    registration.ListedIffUnfired(kept);
  }

  class TcpRead {
    var state: ReadState

    function Streams(): set<TcpStream> reads this { if state.Pending? then {state.stream} else {} }

    function Registrations(): set<FuturesRegistration> reads this { if state.Pending? then {state.stream.registration} else {} }

    function Awaited(): set<FutureInterest>
      reads this
    {
      if state.Pending? && state.interest.Some? then {state.interest.value} else {}
    }

    /** A pending read has its buffer, and an interest, if any, that its stream's registration made. */
    ghost predicate Valid()
      reads this, Registrations(), set r, x | r in Registrations() && x in r.added :: x
    {
      state.Pending? ==>
        && BufferOK(state.buffer) && state.stream.registration.Valid() && state.stream.registration.Agrees()
        && Awaited() <= state.stream.registration.added
    }

    constructor (stream: TcpStream, buffer: Buffer)
      requires BufferOK(buffer) && stream.registration.Valid() && stream.registration.Agrees()
      ensures state == Pending(stream, buffer, None) && Valid()
    {
      state := Pending(stream, buffer, None);
    }

    /** Waiting on an interest that has not fired. */
    predicate Waits()
      reads this, Awaited()
    {
      state.Pending? && state.interest.Some? && !state.interest.value.fired
    }

    /**
      `poll` by task `current`.  A pending poll changes neither buffer nor stream and leaves the task in the slot of
      an interest of the stream; a read that is over, by success or by error, has given its state up for good.
    */
    method Poll(current: nat, choice: Choice) returns (result: PollResult)
      requires Valid()
      modifies this, Streams()`incoming, Streams()`received, Awaited()`task
      modifies Registrations()`interests, Registrations()`armed, Registrations()`added
      ensures Valid()
      ensures result == Panic <==> old(state) == Taken
      ensures result.NotReady? <==> old(Waits()) || (old(state).Pending? && choice == Block)
      ensures state.Pending? <==> result.NotReady?
      ensures result.Ready? <==> old(state).Pending? && !old(Waits()) && choice.Receive?
      ensures result.Error? ==> choice.Fail? && result.errno == choice.errno
      ensures old(state).Pending? ==>
                var stream := old(state).stream;
                && stream.registration.Valid() && stream.registration.Agrees()
                && (!result.Ready? ==> stream.received == old(stream.received) && stream.incoming == old(stream.incoming))
                && old(stream.registration.added) <= stream.registration.added
                && fresh(stream.registration.added - old(stream.registration.added))
                && (forall x :: x in old(stream.registration.added) ==> x.fired == old(x.fired))
      ensures !result.NotReady? && old(state).Pending? ==>
                var registration := old(state).stream.registration;
                && registration.added == old(state.stream.registration.added)
                && registration.interests == old(state.stream.registration.interests)
      ensures result.Ready? ==>
                var stream, n := old(state).stream, result.count;
                && result.stream == stream && n == Taking(choice.count, |old(state).buffer.memory|, |old(state.stream.incoming)|)
                && stream.received == old(state.stream.received) + old(state.stream.incoming)[..n]
                && stream.incoming == old(state.stream.incoming)[n..]
                && result.buffer == Filled(old(state).buffer, old(state.stream.incoming)[..n])
      ensures result.NotReady? ==>
                && state.stream == old(state).stream && state.buffer == old(state).buffer && state.interest.Some?
                && state.interest.value.task == current
                && (old(state).interest.Some? ==> state.interest == old(state).interest
                                                  && state.stream.registration.interests == old(state.stream.registration.interests)
                                                  && state.stream.registration.added == old(state.stream.registration.added))
                && (old(state).interest == None ==>
                      fresh(state.interest.value) && state.stream.registration.interests
                      == old(state.stream.registration.interests) + [Entry({READ}, state.interest.value)])
      ensures old(state).Pending? ==>
                var registration, asked := old(state).stream.registration, Union(old(state.stream.registration.interests));
                registration.armed == if result.NotReady? && old(state).interest == None && !({READ} <= asked)
                                      then Some(asked + {READ}) else old(state.stream.registration.armed)
      // the interest kept can still fire exactly if this poll did not find it fired
      ensures result.NotReady? ==>
                var spent := old(state.interest.Some? && state.interest.value.fired);
                (state.interest.value.fired <==> spent)
                && (Lists(state.stream.registration.interests, state.interest.value) <==> !spent)
    {
      hide Filled, Contents, Union, Lists, FuturesRegistration.Agrees;
      var was := state;
      state := Taken;
      if was == Taken { return Panic; }
      var Pending(stream, buffer, interest) := was;
      if interest.Some? {
        var fired := interest.value.Poll(current);
        if !fired {
          stream.registration.ListedIffUnfired(interest.value);
          state := was;
          return NotReady;
        }
      }
      var reply := stream.Recv(|buffer.memory|, choice);
      match reply {
        case Bytes(data) =>
          result := Ready(stream, Filled(buffer, data), |data|);
        case Failed(errno) =>
          result := Error(errno);
        case WouldBlock =>
          var kept := Await(stream.registration, interest, current);
          state := Pending(stream, buffer, Some(kept));
          result := NotReady;
      }
    }
  }
}
