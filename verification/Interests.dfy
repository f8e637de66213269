/**
  The interest table of one registered fd (src/epoll/mod.rs): a vector of (mask, interest) pairs guarded by a
  mutex, kept in step with the kernel's edge-triggered one-shot registration.
*/
module Interests {
  import opened Prelude

  datatype Flag = READ | WRITE | READ_HUP | EXCEPTIONAL | ERROR | HUP
  type Mask = set<Flag>

  datatype Entry<+T> = Entry(mask: Mask, who: T)

  /** The test of `handle_event`: the whole event word lies in the mask, or it carries HUP or ERROR. */
  predicate Hit(mask: Mask, events: Mask) { events <= mask || events * {HUP, ERROR} != {} }

  /** What the kernel may report on a registration armed with `mask`: HUP and ERROR need not be asked for. */
  predicate Reportable(mask: Mask, events: Mask) { events != {} && events <= mask + {HUP, ERROR} }

  function Union<T>(list: seq<Entry<T>>): Mask
  {
    if list == [] then {} else Union(list[..|list| - 1]) + list[|list| - 1].mask
  }

  /** The mask `handle_event` re-arms with: none when nothing is kept. */
  function RearmMask<T>(list: seq<Entry<T>>): Option<Mask> { if list == [] then None else Some(Union(list)) }

  /** `get_or_insert(empty)` and `|=`: how the loop accumulates that mask. */
  function OrIn(remaining: Option<Mask>, mask: Mask): Option<Mask>
  {
    Some((if remaining.Some? then remaining.value else {}) + mask)
  }

  function Kept<T>(list: seq<Entry<T>>, events: Mask): seq<Entry<T>>
  {
    if list == [] then [] else
      Kept(list[..|list| - 1], events) + if Hit(list[|list| - 1].mask, events) then [] else [list[|list| - 1]]
  }

  function Hits<T>(list: seq<Entry<T>>, events: Mask): seq<Entry<T>>
  {
    if list == [] then [] else
      Hits(list[..|list| - 1], events) + if Hit(list[|list| - 1].mask, events) then [list[|list| - 1]] else []
  }

  lemma {:induction false} UnionHolds<T>(list: seq<Entry<T>>, x: Flag)
    ensures x in Union(list) <==> exists k :: 0 <= k < |list| && x in list[k].mask
  {
    if list != [] {
      var front := list[..|list| - 1];
      UnionHolds(front, x);
      if x in Union(front) {
        var k :| 0 <= k < |front| && x in front[k].mask;
        assert x in list[k].mask;
      }
      if exists k :: 0 <= k < |list| && x in list[k].mask {
        var k :| 0 <= k < |list| && x in list[k].mask;
        assert k < |front| ==> x in front[k].mask;
      }
    }
  }

  lemma EntryInUnion<T>(list: seq<Entry<T>>, k: nat)
    requires k < |list|
    ensures list[k].mask <= Union(list)
  {
    forall x | x in list[k].mask ensures x in Union(list) { UnionHolds(list, x); }
  }

  predicate Lists<T(==)>(list: seq<Entry<T>>, who: T) { exists k :: 0 <= k < |list| && list[k].who == who }

  lemma ListsSnoc<T>(list: seq<Entry<T>>, e: Entry<T>, who: T)
    requires Lists(list, who) || who == e.who
    ensures Lists(list + [e], who)
  {
    if Lists(list, who) {
      var k :| 0 <= k < |list| && list[k].who == who;
      assert (list + [e])[k].who == who;
    } else {
      assert (list + [e])[|list|].who == who;
    }
  }

  /** `swap_remove` delists nobody but the one it removes. */
  lemma ListsRemoved<T>(list: seq<Entry<T>>, i: nat, who: T)
    requires i < |list| && Lists(list, who) && who != list[i].who
    ensures Lists(SwapRemove(list, i), who)
  {
    var k :| 0 <= k < |list| && list[k].who == who;
    assert SwapRemove(list, i)[if k == |list| - 1 then i else k].who == who;
  }

  /** The union depends on which entries there are, not on the order `swap_remove` leaves them in. */
  lemma UnionOfBag<T>(a: seq<Entry<T>>, b: seq<Entry<T>>)
    requires multiset(a) == multiset(b)
    ensures Union(a) == Union(b)
  {
    forall x ensures x in Union(a) <==> x in Union(b) {
      UnionHolds(a, x);
      UnionHolds(b, x);
      if x in Union(a) { var k :| 0 <= k < |a| && x in a[k].mask; assert a[k] in multiset(b); }
      if x in Union(b) { var k :| 0 <= k < |b| && x in b[k].mask; assert b[k] in multiset(a); }
    }
  }

  lemma UnionSnoc<T>(list: seq<Entry<T>>, e: Entry<T>)
    ensures Union(list + [e]) == Union(list) + e.mask
  {
    assert (list + [e])[..|list|] == list;
  }

  /** `kept` and `hits` are `list` taken apart by the test of `handle_event`, in any order. */
  ghost predicate Split<T>(list: seq<Entry<T>>, events: Mask, kept: seq<Entry<T>>, hits: seq<Entry<T>>)
  {
    && multiset(kept) + multiset(hits) == multiset(list)
    && (forall e :: e in kept ==> !Hit(e.mask, events))
    && (forall e :: e in hits ==> Hit(e.mask, events))
  }

  lemma RearmSnoc<T>(list: seq<Entry<T>>, e: Entry<T>)
    ensures RearmMask(list + [e]) == OrIn(RearmMask(list), e.mask)
  {
    UnionSnoc(list, e);
  }

  lemma {:induction false} FilterSplits<T>(list: seq<Entry<T>>, events: Mask)
    ensures Split(list, events, Kept(list, events), Hits(list, events))
  {
    if list != [] {
      FilterSplits(list[..|list| - 1], events);
      assert list == list[..|list| - 1] + [list[|list| - 1]];
    }
  }

  /** An unhit entry of the whole is in the unhit part. */
  lemma UnhitIsKept<T>(events: Mask, kept: seq<Entry<T>>, hits: seq<Entry<T>>, e: Entry<T>) returns (j: nat)
    requires e in multiset(kept) + multiset(hits) && !Hit(e.mask, events)
    requires forall x :: x in hits ==> Hit(x.mask, events)
    ensures j < |kept| && kept[j] == e
  {
    assert e !in multiset(hits);
    assert e in kept;
    j :| 0 <= j < |kept| && kept[j] == e;
  }

  lemma Cancel<T>(a: multiset<T>, b: multiset<T>, c: multiset<T>, d: multiset<T>, x: T)
    requires (a + multiset{x}) + b == (c + multiset{x}) + d
    ensures a + b == c + d
  {
    assert a + b == ((a + multiset{x}) + b) - multiset{x};
    assert c + d == ((c + multiset{x}) + d) - multiset{x};
  }

  /** A split is the filter, up to order. */
  lemma {:induction false} SplitUnique<T>(events: Mask, kept: seq<Entry<T>>, hits: seq<Entry<T>>,
                                          kept': seq<Entry<T>>, hits': seq<Entry<T>>)
    requires multiset(kept) + multiset(hits) == multiset(kept') + multiset(hits')
    requires (forall e :: e in kept ==> !Hit(e.mask, events)) && (forall e :: e in kept' ==> !Hit(e.mask, events))
    requires (forall e :: e in hits ==> Hit(e.mask, events)) && (forall e :: e in hits' ==> Hit(e.mask, events))
    ensures multiset(kept) == multiset(kept') && multiset(hits) == multiset(hits')
    decreases |kept| + |kept'|, |kept'|
  {
    if kept == [] && kept' == [] {
      assert multiset(kept) + multiset(hits) == multiset(hits) && multiset(kept') + multiset(hits') == multiset(hits');
    } else if kept == [] {
      SplitUnique(events, kept', hits', kept, hits);
    } else {
      var n := |kept| - 1;
      var x := kept[n];
      assert kept == kept[..n] + [x];
      assert multiset(kept) == multiset(kept[..n]) + multiset{x};
      var j := UnhitIsKept(events, kept', hits', x);
      SwapRemoveDropsOne(kept', j);
      var fewer := SwapRemove(kept', j);
      assert multiset(kept') == multiset(fewer) + multiset{x};
      forall e | e in fewer ensures e in kept' { assert e in multiset(fewer); assert e in multiset(kept'); }
      Cancel(multiset(kept[..n]), multiset(hits), multiset(fewer), multiset(hits'), x);
      SplitUnique(events, kept[..n], hits, fewer, hits');
    }
  }

  lemma SplitIsFilter<T>(list: seq<Entry<T>>, events: Mask, kept: seq<Entry<T>>, hits: seq<Entry<T>>)
    requires Split(list, events, kept, hits)
    ensures multiset(kept) == multiset(Kept(list, events)) && multiset(hits) == multiset(Hits(list, events))
    ensures |kept| == |Kept(list, events)|
  {
    FilterSplits(list, events);
    SplitUnique(events, kept, hits, Kept(list, events), Hits(list, events));
    assert |multiset(kept)| == |kept| && |multiset(Kept(list, events))| == |Kept(list, events)|;
  }

  lemma {:induction false} SplitSizes<T>(list: seq<Entry<T>>, events: Mask)
    ensures |Kept(list, events)| + |Hits(list, events)| == |list|
    ensures |Hits(list, events)| > 0 <==> exists k :: 0 <= k < |list| && Hit(list[k].mask, events)
    ensures |Hits(list, events)| == 0 ==> Kept(list, events) == list
  {
    if list != [] {
      var front := list[..|list| - 1];
      SplitSizes(front, events);
      assert list == front + [list[|list| - 1]];
      if exists k :: 0 <= k < |front| && Hit(front[k].mask, events) {
        var k :| 0 <= k < |front| && Hit(front[k].mask, events);
        assert Hit(list[k].mask, events);
      }
    }
  }

  /**
    Delivery progress: a delivery shortens the table exactly when its word lies within some listed mask or carries
    HUP or ERROR; any other delivery leaves the table, and so the mask it is re-armed with, as it was.
  */
  lemma DeliveryProgress<T>(list: seq<Entry<T>>, events: Mask)
    ensures |Kept(list, events)| < |list| <==>
              list != [] && (events * {HUP, ERROR} != {} || exists k :: 0 <= k < |list| && events <= list[k].mask)
    ensures |Kept(list, events)| == |list| ==> Kept(list, events) == list && RearmMask(Kept(list, events)) == RearmMask(list)
  {
    SplitSizes(list, events);
    if list != [] && events * {HUP, ERROR} != {} { assert Hit(list[0].mask, events); }
    if exists k :: 0 <= k < |list| && events <= list[k].mask {
      var k :| 0 <= k < |list| && events <= list[k].mask;
      assert Hit(list[k].mask, events);
    }
  }

  /**
    Who can be passed over: every delivery the arming allows hits an entry if and only if the entry asks for everything
    the table asks for, HUP and ERROR aside.  A WRITE waiter beside a READ and WRITE one never stalls the table, and
    can itself be passed over forever.
  */
  lemma AlwaysHitIff<T>(list: seq<Entry<T>>, k: nat)
    requires k < |list|
    ensures (forall events :: Reportable(Union(list), events) ==> Hit(list[k].mask, events))
            <==> Union(list) - {HUP, ERROR} <= list[k].mask
  {
    var asked := Union(list) - {HUP, ERROR};
    if asked <= list[k].mask {
      forall events | Reportable(Union(list), events) ensures Hit(list[k].mask, events) { AskedOrHangUp(Union(list), events); }
    } else {
      assert asked != {} && asked * {HUP, ERROR} == {};
      assert Reportable(Union(list), asked);
    }
  }

  /** A word the arming allows was asked for, unless it carries HUP or ERROR. */
  lemma AskedOrHangUp(mask: Mask, events: Mask)
    requires Reportable(mask, events)
    ensures events * {HUP, ERROR} != {} || events <= mask - {HUP, ERROR}
  {
    if events * {HUP, ERROR} == {} {
      forall x | x in events ensures x in mask - {HUP, ERROR} { assert x !in events * {HUP, ERROR}; }
    }
  }

  /**
    When a table can stall: every delivery its arming allows fires somebody if and only if some entry asks for
    everything the table asks for, HUP and ERROR aside.  This can be checked before an interest is added.
  */
  lemma NoStallIff<T>(list: seq<Entry<T>>)
    requires list != []
    ensures (forall events :: Reportable(Union(list), events) ==> |Kept(list, events)| < |list|)
            <==> exists k :: 0 <= k < |list| && Union(list) - {HUP, ERROR} <= list[k].mask
  {
    var asked := Union(list) - {HUP, ERROR};
    if exists k :: 0 <= k < |list| && asked <= list[k].mask {
      var k :| 0 <= k < |list| && asked <= list[k].mask;
      AlwaysHitIff(list, k);
      forall events | Reportable(Union(list), events) ensures |Kept(list, events)| < |list| {
        assert Hit(list[k].mask, events);
        DeliveryProgress(list, events);
      }
    } else {
      assert asked <= list[0].mask || asked != {};
      DeliveryProgress(list, asked);
      assert asked * {HUP, ERROR} == {};
      assert Reportable(Union(list), asked);
    }
  }

  /** When all listed masks are the same, every delivery the armed union allows empties the table. */
  lemma {:induction false} EqualMasksEmpty<T>(list: seq<Entry<T>>, mask: Mask, events: Mask)
    requires forall k :: 0 <= k < |list| ==> list[k].mask == mask
    requires list != [] ==> Reportable(Union(list), events)
    ensures Kept(list, events) == []
  {
    if list != [] {
      assert Union(list) <= mask by {
        forall x | x in Union(list) ensures x in mask { UnionHolds(list, x); }
      }
      assert Hit(mask, events) by {
        if HUP !in events && ERROR !in events {
          forall x | x in events ensures x in mask { assert x in mask + {HUP, ERROR}; }
        } else {
          assert HUP in events * {HUP, ERROR} || ERROR in events * {HUP, ERROR};
        }
      }
      AllHit(list, events);
    }
  }

  lemma SplitAllHit<T>(list: seq<Entry<T>>, events: Mask, kept: seq<Entry<T>>, hits: seq<Entry<T>>)
    requires Split(list, events, kept, hits) && forall k :: 0 <= k < |list| ==> Hit(list[k].mask, events)
    ensures kept == []
  {
    SplitIsFilter(list, events, kept, hits);
    AllHit(list, events);
  }

  lemma {:induction false} AllHit<T>(list: seq<Entry<T>>, events: Mask)
    requires forall k :: 0 <= k < |list| ==> Hit(list[k].mask, events)
    ensures Kept(list, events) == []
  {
    if list != [] { AllHit(list[..|list| - 1], events); }
  }

  /**
    Containment, not intersection: a reader and a writer on one fd, both ready.  The kernel may report READ and
    WRITE together, neither interest fires, and the table and its arming are what they were before.
  */
  lemma ReadWriteDeliveryFiresNobody<T>(reader: T, writer: T)
    ensures var list := [Entry({READ}, reader), Entry({WRITE}, writer)];
            && Reportable(Union(list), {READ, WRITE})
            && Kept(list, {READ, WRITE}) == list && Hits(list, {READ, WRITE}) == []
  {
    var list := [Entry({READ}, reader), Entry({WRITE}, writer)];
    UnionSnoc([list[0]], list[1]);
    UnionSnoc([], list[0]);
    assert list == [list[0]] + [list[1]] && [list[0]] == [] + [list[0]];
    assert !({READ, WRITE} <= {READ}) by { assert WRITE in {READ, WRITE}; }
    assert !({READ, WRITE} <= {WRITE}) by { assert READ in {READ, WRITE}; }
    SplitSizes(list, {READ, WRITE});
  }

  // ---------------------------------------------------------------------------------------------------------
  // The objects the source updates

  /** `_FutureInterest`: the fired flag and the AtomicTask slot. */
  class FutureInterest {
    var fired: bool
    var task: nat

    constructor (current: nat)
      ensures !fired && task == current
    {
      fired, task := false, current;
    }

    /** `poll`: ready if fired, else the current task goes into the slot. */
    method Poll(current: nat) returns (ready: bool)
      modifies this`task
      ensures ready <==> fired
      ensures task == if ready then old(task) else current
    {
      ready := fired;
      if !ready { Register(current); }
    }

    method Register(current: nat)
      modifies this`task
      ensures task == current
    {
      task := current;
    }
  }

  /**
    `FuturesRegistration`: the table, and the kernel's side of it.  `armed` is the one-shot registration and
    `pending` the deliveries that have left the kernel but whose handler has not taken the lock.
  */
  class FuturesRegistration {
    var interests: seq<Entry<FutureInterest>>
    var armed: Option<Mask>
    ghost var pending: multiset<Mask>
    ghost var added: set<FutureInterest>   // every interest this registration has made

    /** The listed interests are distinct, and they are the unfired ones. */
    ghost predicate Valid()
      reads this, added
    {
      && (forall k :: 0 <= k < |interests| ==> interests[k].who in added && !interests[k].who.fired)
      && (forall x :: x in added && !x.fired ==> Lists(interests, x))
      && (forall j, k :: 0 <= j < k < |interests| ==> interests[j].who != interests[k].who)
    }

    /** A listed interest has a delivery coming, or the kernel is armed with exactly the listed masks. */
    ghost predicate Agrees()
      reads this
    {
      interests != [] ==> armed == Some(Union(interests)) || (armed == None && pending != multiset{})
    }

    lemma ListedIffUnfired(x: FutureInterest)
      requires Valid() && x in added
      ensures Lists(interests, x) <==> !x.fired
    {
    }

    constructor ()
      ensures Valid() && Agrees() && interests == [] && armed == Some({}) && pending == multiset{} && added == {}
    {
      interests, armed, pending, added := [], Some({}), multiset{}, {};
    }

    /**
      `add_interest`, the whole locked section.  It keeps the agreement with the kernel exactly when the mask
      asks for something or the table was not both empty and out of step.
    */
    method AddInterest(events: Mask, current: nat) returns (interest: FutureInterest)
      requires Valid()
      modifies this`interests, this`armed, this`added
      ensures Valid() && added == old(added) + {interest} && fresh(interest) && !interest.fired && interest.task == current
      ensures interests == old(interests) + [Entry(events, interest)]
      ensures armed == if events <= Union(old(interests)) then old(armed) else Some(Union(interests))
      ensures old(Agrees()) ==>
                (Agrees() <==> events != {} || old(interests) != [] || old(armed) == Some({})
                               || (old(armed) == None && pending != multiset{}))
    {
      var oldEventMask := Fold();
      interest := new FutureInterest(current);
      UnionSnoc(interests, Entry(events, interest));
      Append(Entry(events, interest));
      hide FuturesRegistration.Valid, Lists, Union;
      if !(events <= oldEventMask) {
        Modify(oldEventMask + events);
      } else {
        assert oldEventMask + events == oldEventMask;
      }
    }

    /** A new interest is listed. */
    method Append(entry: Entry<FutureInterest>)
      requires Valid() && entry.who !in added && !entry.who.fired
      modifies this`interests, this`added
      ensures Valid() && interests == old(interests) + [entry] && added == old(added) + {entry.who}
    {
      forall x | x in added + {entry.who} && !x.fired ensures Lists(interests + [entry], x) { ListsSnoc(interests, entry, x); }
      interests := interests + [entry];
      added := added + {entry.who};
    }

    /** The union of the listed masks. */
    method Fold() returns (mask: Mask)
      ensures mask == Union(interests)
    {
      mask := {};
      for k := 0 to |interests|
        invariant mask == Union(interests[..k])
      {
        assert interests[..k + 1][..k] == interests[..k];
        mask := mask + interests[k].mask;
      }
      assert interests[..|interests|] == interests;
    }

    /** `Registration::modify`, which succeeds. */
    method Modify(mask: Mask)
      requires Valid()
      modifies this`armed
      ensures Valid() && armed == Some(mask)
    {
      armed := Some(mask);
    }

    /** The end of `handle_event`: what stays in the table is what the kernel is armed with. */
    method Rearm(remaining: Option<Mask>)
      requires Valid() && remaining == RearmMask(interests)
      modifies this`armed
      ensures Valid() && Agrees() && armed == if interests == [] then old(armed) else Some(Union(interests))
    {
      if remaining.Some? { Modify(remaining.value); }
    }

    /** The kernel: a one-shot delivery takes the arming away. */
    method Deliver(events: Mask)
      requires Valid() && Agrees() && armed.Some? && Reportable(armed.value, events)
      modifies this`armed, this`pending
      ensures Valid() && Agrees() && armed == None && pending == old(pending) + multiset{events}
    {
      armed := None;
      pending := pending + multiset{events};
      assert events in pending;
    }

    /** The firing branch of the loop: set the flag, notify the task in the slot, `swap_remove` the entry. */
    method FireAt(i: nat, interest: FutureInterest) returns (task: nat)
      requires Valid() && i < |interests| && interest == interests[i].who
      modifies this`interests, interest`fired
      ensures Valid() && interests == SwapRemove(old(interests), i)
      ensures interest.fired && task == interest.task
    {
      forall x | x in added && !x.fired && x != interest ensures Lists(SwapRemove(interests, i), x) {
        ListsRemoved(interests, i, x);
      }
      interest.fired := true;
      task := interest.task;
      interests := SwapRemove(interests, i);
    }

    /**
      `handle_event`, the whole locked section: the interests that are hit are fired and leave the table, the
      others stay, and the registration is re-armed with what stays.  `hits` are the fired entries in order, and
      `notified` the tasks found in their slots.
    */
    method HandleEvent(events: Mask) returns (notified: seq<nat>, ghost hits: seq<Entry<FutureInterest>>)
      requires Valid() && Agrees() && events in pending
      modifies this`interests, this`armed, this`pending, added`fired
      ensures Valid() && Agrees() && pending == old(pending) - multiset{events}
      ensures Split(old(interests), events, interests, hits)
      ensures |notified| == |hits| && forall k :: 0 <= k < |hits| ==> hits[k].who.fired && notified[k] == hits[k].who.task
      ensures forall x :: x in added && old(x.fired) ==> x.fired
      ensures armed == if interests == [] then old(armed) else Some(Union(interests))
    {
      hide FuturesRegistration.Valid, FuturesRegistration.Agrees, Split, Lists, Union, RearmMask;
      var remaining: Option<Mask>;
      TakeLock(events);
      notified, hits, remaining := Sweep(events);
      Rearm(remaining);
    }

    /** A delivery and its handler with nothing in between. */
    method OneShot(events: Mask) returns (notified: seq<nat>, ghost hits: seq<Entry<FutureInterest>>)
      requires Valid() && Agrees() && armed.Some? && Reportable(armed.value, events)
      modifies this`interests, this`armed, this`pending, added`fired
      ensures Valid() && Agrees() && pending == old(pending) && Split(old(interests), events, interests, hits)
      ensures |notified| == |hits| && forall k :: 0 <= k < |hits| ==> hits[k].who.fired && notified[k] == hits[k].who.task
      ensures forall x :: x in added && old(x.fired) ==> x.fired
      ensures armed == if interests == [] then None else Some(Union(interests))
    {
      hide FuturesRegistration.Valid, FuturesRegistration.Agrees, Split, Reportable, Union;
      ghost var before := pending;
      Deliver(events);
      assert events in pending && pending - multiset{events} == before;
      notified, hits := HandleEvent(events);
    }

    /** The handler has the lock: the delivery is no longer pending. */
    ghost method TakeLock(events: Mask)
      requires Valid() && events in pending
      modifies this`pending
      ensures Valid() && pending == old(pending) - multiset{events}
    {
      pending := pending - multiset{events};
    }

    /** The loop of `handle_event`. */
    method Sweep(events: Mask)
      returns (notified: seq<nat>, ghost hits: seq<Entry<FutureInterest>>, remaining: Option<Mask>)
      requires Valid()
      modifies this`interests, added`fired
      ensures Valid() && remaining == RearmMask(interests)
      ensures |notified| == |hits| && forall k :: 0 <= k < |hits| ==> hits[k].who.fired && notified[k] == hits[k].who.task
      ensures Split(old(interests), events, interests, hits)
      ensures forall x :: x in added && old(x.fired) ==> x.fired
    {
      hide Partway, Split;
      var i := 0;
      remaining, notified, hits := None, [], [];
      PartwayStart(interests, events);
      while i < |interests|
        invariant Valid() && i <= |interests| && |notified| == |hits|
        invariant forall k :: 0 <= k < |hits| ==> hits[k].who in added && hits[k].who.fired && notified[k] == hits[k].who.task
        invariant forall x :: x in added && old(x.fired) ==> x.fired
        invariant Partway(old(interests), events, interests, hits, i, remaining)
        decreases |interests| - i
      {
        var interestMask := interests[i].mask;
        if Hit(interestMask, events) {
          PartwayFire(old(interests), events, interests, hits, i, remaining);
          ghost var entry := interests[i];
          var task := FireAt(i, interests[i].who);
          notified, hits := notified + [task], hits + [entry];
        } else {
          PartwayKeep(old(interests), events, interests, hits, i, remaining);
          remaining := OrIn(remaining, interestMask);
          i := i + 1;
        }
      }
      PartwayEnd(old(interests), events, interests, hits, i, remaining);
    }
  }

  lemma PartwayStart<T>(list: seq<Entry<T>>, events: Mask)
    ensures Partway(list, events, list, [], 0, None)
  {
  }

  lemma PartwayEnd<T>(list: seq<Entry<T>>, events: Mask, rest: seq<Entry<T>>, hits: seq<Entry<T>>, i: nat, remaining: Option<Mask>)
    requires Partway(list, events, rest, hits, i, remaining) && i == |rest|
    ensures remaining == RearmMask(rest) && Split(list, events, rest, hits)
  {
    assert rest[..i] == rest;
  }

  /** The loop has passed the first `i` entries, taken `hits` out, and or-ed up the masks it passed. */
  ghost predicate Partway<T>(list: seq<Entry<T>>, events: Mask, rest: seq<Entry<T>>, hits: seq<Entry<T>>, i: nat,
                             remaining: Option<Mask>)
  {
    && i <= |rest| && multiset(rest) + multiset(hits) == multiset(list)
    && (forall e :: e in rest[..i] ==> !Hit(e.mask, events))
    && (forall e :: e in hits ==> Hit(e.mask, events))
    && (forall e :: e in rest ==> e in list)
    && remaining == RearmMask(rest[..i])
  }

  lemma PartwayFire<T>(list: seq<Entry<T>>, events: Mask, rest: seq<Entry<T>>, hits: seq<Entry<T>>, i: nat,
                       remaining: Option<Mask>)
    requires Partway(list, events, rest, hits, i, remaining) && i < |rest| && Hit(rest[i].mask, events)
    ensures Partway(list, events, SwapRemove(rest, i), hits + [rest[i]], i, remaining)
  {
    hide RearmMask, Hit;
    MovedAcross(rest, hits, i);
    var fewer := SwapRemove(rest, i);
    forall e | e in fewer ensures e in list { assert e in multiset(fewer); assert e in multiset(rest); }
  }

  /** An entry goes from the table to the hits. */
  lemma MovedAcross<T>(rest: seq<Entry<T>>, hits: seq<Entry<T>>, i: nat)
    requires i < |rest|
    ensures multiset(rest) == multiset(SwapRemove(rest, i)) + multiset{rest[i]}
    ensures multiset(SwapRemove(rest, i)) + multiset(hits + [rest[i]]) == multiset(rest) + multiset(hits)
  {
    SwapRemoveDropsOne(rest, i);
    assert rest[i] in multiset(rest);
  }

  lemma PartwayKeep<T>(list: seq<Entry<T>>, events: Mask, rest: seq<Entry<T>>, hits: seq<Entry<T>>, i: nat,
                       remaining: Option<Mask>)
    requires Partway(list, events, rest, hits, i, remaining) && i < |rest| && !Hit(rest[i].mask, events)
    ensures Partway(list, events, rest, hits, i + 1, OrIn(remaining, rest[i].mask))
  {
    RearmSnoc(rest[..i], rest[i]);
    assert rest[..i + 1] == rest[..i] + [rest[i]];
  }
}
