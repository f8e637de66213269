/** Small vocabulary shared by every model: options, `Vec::swap_remove`, and sums of per-element counts. */
module Prelude {

  datatype Option<+T> = None | Some(value: T)

  function One(b: bool): nat { if b then 1 else 0 }

  /** `Vec::swap_remove`: the last element takes the place of the removed one. */
  function SwapRemove<T>(q: seq<T>, i: nat): (r: seq<T>)
    requires i < |q|
    ensures |r| == |q| - 1
    ensures r[..i] == q[..i]
  {
    q[i := q[|q| - 1]][..|q| - 1]
  }

  lemma {:induction false} SwapRemoveDropsOne<T>(q: seq<T>, i: nat)
    requires i < |q|
    ensures multiset(SwapRemove(q, i)) == multiset(q) - multiset{q[i]}
  {
    var last := |q| - 1;
    assert q == q[..last] + [q[last]];
    if i < last {
      assert q[..last] == q[..i] + [q[i]] + q[i + 1..last];
      assert SwapRemove(q, i) == q[..i] + [q[last]] + q[i + 1..last];
    } else {
      assert SwapRemove(q, i) == q[..last];
    }
  }

  lemma Assoc<T>(a: seq<T>, b: seq<T>, c: seq<T>)
    ensures (a + b) + c == a + (b + c)
  {
  }

  function Flat<T>(rows: seq<seq<T>>): seq<T>
  {
    if rows == [] then [] else Flat(rows[..|rows| - 1]) + rows[|rows| - 1]
  }

  lemma FlatSnoc<T>(rows: seq<seq<T>>, row: seq<T>)
    ensures Flat(rows + [row]) == Flat(rows) + row
  {
    assert (rows + [row])[..|rows|] == rows;
  }

  lemma {:induction false} FlatAppend<T>(rows: seq<seq<T>>, more: seq<seq<T>>)
    ensures Flat(rows + more) == Flat(rows) + Flat(more)
  {
    if more == [] {
      assert rows + more == rows;
    } else {
      var front, last := more[..|more| - 1], more[|more| - 1];
      FlatAppend(rows, front);
      FlatSnoc(rows + front, last);
      Assoc(rows, front, [last]);
      Assoc(Flat(rows), Flat(front), last);
      assert more == front + [last];
      FlatSnoc(front, last);
      hide Flat;
    }
  }

  /** How often `t` occurs in `q`. */
  function Occurrences(q: seq<nat>, t: nat): nat { multiset(q)[t] }

  lemma OccurrencesPush(q: seq<nat>, x: nat, t: nat)
    ensures Occurrences(q + [x], t) == Occurrences(q, t) + if x == t then 1 else 0
  {
    assert multiset(q + [x]) == multiset(q) + multiset{x};
  }

  lemma OccurrencesPop(q: seq<nat>, t: nat)
    requires q != []
    ensures Occurrences(q, t) == Occurrences(q[1..], t) + if q[0] == t then 1 else 0
  {
    assert q == [q[0]] + q[1..];
  }

  /** The sum over `xs` of what each element contributes to `t`. */
  function Total<T>(xs: seq<T>, f: (T, nat) -> nat, t: nat): nat
  {
    if xs == [] then 0 else Total(xs[..|xs| - 1], f, t) + f(xs[|xs| - 1], t)
  }

  lemma {:induction false} TotalPush<T>(xs: seq<T>, x: T, f: (T, nat) -> nat, t: nat)
    ensures Total(xs + [x], f, t) == Total(xs, f, t) + f(x, t)
  {
    assert (xs + [x])[..|xs|] == xs;
  }

  lemma {:induction false} TotalSet<T>(xs: seq<T>, i: nat, x: T, f: (T, nat) -> nat, t: nat)
    requires i < |xs|
    ensures Total(xs[i := x], f, t) + f(xs[i], t) == Total(xs, f, t) + f(x, t)
  {
    var last := |xs| - 1;
    if i < last {
      TotalSet(xs[..last], i, x, f, t);
      assert xs[i := x][..last] == xs[..last][i := x];
    } else {
      assert xs[i := x][..last] == xs[..last];
    }
  }

  lemma TotalSetAll<T>(xs: seq<T>, i: nat, x: T, f: (T, nat) -> nat)
    requires i < |xs|
    ensures forall t: nat :: Total(xs[i := x], f, t) == Total(xs, f, t) - f(xs[i], t) + f(x, t)
  {
    forall t: nat ensures Total(xs[i := x], f, t) == Total(xs, f, t) - f(xs[i], t) + f(x, t) { TotalSet(xs, i, x, f, t); }
  }

  lemma {:induction false} TotalAtLeast<T>(xs: seq<T>, i: nat, f: (T, nat) -> nat, t: nat)
    requires i < |xs|
    ensures f(xs[i], t) <= Total(xs, f, t)
  {
    if i < |xs| - 1 { TotalAtLeast(xs[..|xs| - 1], i, f, t); }
  }

  lemma {:induction false} TotalAtLeastTwo<T>(xs: seq<T>, i: nat, j: nat, f: (T, nat) -> nat, t: nat)
    requires i < j < |xs|
    ensures f(xs[i], t) + f(xs[j], t) <= Total(xs, f, t)
  {
    var front := xs[..|xs| - 1];
    if j < |xs| - 1 { TotalAtLeastTwo(front, i, j, f, t); } else { TotalAtLeast(front, i, f, t); }
  }

  /** A positive sum has a contributor. */
  lemma {:induction false} TotalWitness<T>(xs: seq<T>, f: (T, nat) -> nat, t: nat) returns (i: nat)
    requires Total(xs, f, t) > 0
    ensures i < |xs| && f(xs[i], t) > 0
  {
    var last := |xs| - 1;
    if f(xs[last], t) > 0 { i := last; } else { i := TotalWitness(xs[..last], f, t); }
  }

  lemma TotalZero<T>(xs: seq<T>, f: (T, nat) -> nat, t: nat)
    requires forall i :: 0 <= i < |xs| ==> f(xs[i], t) == 0
    ensures Total(xs, f, t) == 0
  {
    if Total(xs, f, t) > 0 { var i := TotalWitness(xs, f, t); }
  }

  lemma {:induction false} TotalSame<T>(xs: seq<T>, ys: seq<T>, f: (T, nat) -> nat, t: nat)
    requires |xs| == |ys| && forall i :: 0 <= i < |xs| ==> f(xs[i], t) == f(ys[i], t)
    ensures Total(xs, f, t) == Total(ys, f, t)
  {
    if xs != [] { TotalSame(xs[..|xs| - 1], ys[..|ys| - 1], f, t); }
  }

  lemma {:induction false} TotalBelow<T>(xs: seq<T>, f: (T, nat) -> nat, g: (T, nat) -> nat, t: nat)
    requires forall x :: x in xs ==> f(x, t) <= g(x, t)
    ensures Total(xs, f, t) <= Total(xs, g, t)
  {
    if xs != [] {
      TotalBelow(xs[..|xs| - 1], f, g, t);
    }
  }
}
