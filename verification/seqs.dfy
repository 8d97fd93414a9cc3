/** Sequence utilities the services rely on: the left-to-right running sum
    that `reduce((sum, x) => sum + x, 0)` and `+=` accumulators compute, and
    the first-seen de-duplication that an insertion-ordered `Map` or `Set`
    performs. */
module Seqs {

  /** The running sum of `xs`, accumulated left to right from 0. */
  function Sum(xs: seq<real>): real
  {
    if |xs| == 0 then 0.0 else Sum(xs[..|xs| - 1]) + xs[|xs| - 1]
  }

  /** The running sum of the sizes of the items of `xs`. */
  function Total<T>(xs: seq<T>, size: T -> nat): nat
  {
    if |xs| == 0 then 0 else Total(xs[..|xs| - 1], size) + size(xs[|xs| - 1])
  }

  lemma TotalAppend<T>(xs: seq<T>, x: T, size: T -> nat)
    ensures Total(xs + [x], size) == Total(xs, size) + size(x)
  {
    assert (xs + [x])[..|xs|] == xs;
  }

  lemma SumAppend(xs: seq<real>, v: real)
    ensures Sum(xs + [v]) == Sum(xs) + v
  {
    assert (xs + [v])[..|xs|] == xs;
  }

  lemma SumSingleton(v: real)
    ensures Sum([v]) == v
  {
    SumAppend([], v);
    assert [] + [v] == [v];
  }

  /** Replacing one element changes the sum by the difference of the two values. */
  lemma {:induction false} SumUpdate(xs: seq<real>, i: nat, v: real)
    requires i < |xs|
    ensures Sum(xs[i := v]) == Sum(xs) - xs[i] + v
    decreases |xs|
  {
    var n := |xs| - 1;
    if i == n {
      assert xs[i := v][..n] == xs[..n];
    } else {
      assert xs[i := v][..n] == xs[..n][i := v];
      SumUpdate(xs[..n], i, v);
    }
  }

  /** Summing a concatenation sums the parts. */
  lemma {:induction false} SumConcat(xs: seq<real>, ys: seq<real>)
    ensures Sum(xs + ys) == Sum(xs) + Sum(ys)
    decreases |ys|
  {
    if |ys| == 0 {
      assert xs + ys == xs;
    } else {
      var m := |ys| - 1;
      assert (xs + ys)[..|xs + ys| - 1] == xs + ys[..m];
      SumConcat(xs, ys[..m]);
    }
  }

  /** Scaling every element scales the sum. */
  lemma {:induction false} SumScale(xs: seq<real>, ys: seq<real>, c: real)
    requires |ys| == |xs|
    requires forall i :: 0 <= i < |xs| ==> ys[i] == xs[i] * c
    ensures Sum(ys) == Sum(xs) * c
    decreases |xs|
  {
    if |xs| > 0 {
      var n := |xs| - 1;
      SumScale(xs[..n], ys[..n], c);
    }
  }

  /** Element-wise closeness within `e` bounds the difference of the sums. */
  lemma {:induction false} SumClose(xs: seq<real>, ys: seq<real>, e: real)
    requires |ys| == |xs|
    requires forall i :: 0 <= i < |xs| ==> -e <= ys[i] - xs[i] <= e
    ensures -e * (|xs| as real) <= Sum(ys) - Sum(xs) <= e * (|xs| as real)
    decreases |xs|
  {
    if |xs| > 0 {
      var n := |xs| - 1;
      SumClose(xs[..n], ys[..n], e);
      var before := Sum(ys[..n]) - Sum(xs[..n]);
      var bound := e * (n as real);
      assert -e * (n as real) == -bound;
      assert -bound <= before <= bound;
      assert Sum(ys) - Sum(xs) == before + (ys[n] - xs[n]);
      assert e * (|xs| as real) == bound + e;
      assert -e * (|xs| as real) == -bound - e;
    }
  }

  /** Each element of `xs` through `f`, in order. */
  function MapSeq<A, B>(xs: seq<A>, f: A -> B): (ys: seq<B>)
    ensures |ys| == |xs|
    ensures forall i :: 0 <= i < |xs| ==> ys[i] == f(xs[i])
  {
    seq(|xs|, i requires 0 <= i < |xs| => f(xs[i]))
  }

  /** The positions of `xs` whose element passes `keep`, in ascending order. */
  function Passing<A>(xs: seq<A>, keep: A -> bool): (ix: seq<nat>)
    ensures |ix| <= |xs|
    ensures forall k :: 0 <= k < |ix| ==> ix[k] < |xs| && keep(xs[ix[k]])
    ensures forall k, l :: 0 <= k < l < |ix| ==> ix[k] < ix[l]
    ensures forall i :: 0 <= i < |xs| && keep(xs[i]) ==> i in ix
  {
    if |xs| == 0 then []
    else
      var n := |xs| - 1;
      Passing(xs[..n], keep) + (if keep(xs[n]) then [n] else [])
  }

  /** `xs.filter(keep).map(f)`: the `k`-th output is the image of the
      `k`-th element that passes, so every output comes from a passing
      element, every passing element gives an output, and input order is
      kept. */
  function FilterMap<A, B>(xs: seq<A>, keep: A -> bool, f: A -> B): (ys: seq<B>)
    ensures |ys| == |Passing(xs, keep)|
    ensures forall k :: 0 <= k < |ys| ==> ys[k] == f(xs[Passing(xs, keep)[k]])
  {
    if |xs| == 0 then []
    else
      var n := |xs| - 1;
      FilterMap(xs[..n], keep, f) + (if keep(xs[n]) then [f(xs[n])] else [])
  }

  /** Every passing element's image is among the outputs. */
  lemma FilterMapComplete<A, B>(xs: seq<A>, keep: A -> bool, f: A -> B, i: nat)
    requires i < |xs| && keep(xs[i])
    ensures f(xs[i]) in FilterMap(xs, keep, f)
  {
    var ix := Passing(xs, keep);
    var k :| 0 <= k < |ix| && ix[k] == i;
    assert FilterMap(xs, keep, f)[k] == f(xs[i]);
  }

  /** The elements that pass `keep`, in order: the `k`-th output is the
      `k`-th element that passes, and an element is kept iff it occurs and
      passes. */
  function Filter<A(!new)>(xs: seq<A>, keep: A -> bool): (ys: seq<A>)
    ensures |ys| == |Passing(xs, keep)| <= |xs|
    ensures forall k :: 0 <= k < |ys| ==> ys[k] == xs[Passing(xs, keep)[k]]
    ensures forall x :: x in ys <==> x in xs && keep(x)
  {
    if |xs| == 0 then []
    else
      var n := |xs| - 1;
      assert forall x :: x in xs <==> x in xs[..n] || x == xs[n] by {
        assert xs == xs[..n] + [xs[n]];
      }
      Filter(xs[..n], keep) + (if keep(xs[n]) then [xs[n]] else [])
  }

  /** No element occurs twice. */
  predicate NoDup<T(==)>(xs: seq<T>) {
    forall i, j :: 0 <= i < j < |xs| ==> xs[i] != xs[j]
  }

  lemma NoDupAppend<T>(xs: seq<T>, x: T)
    requires NoDup(xs) && x !in xs
    ensures NoDup(xs + [x])
  {
  }

  /** Appends `x` unless it is already present: one step of an insertion-ordered set. */
  function AddNew<T(==)>(xs: seq<T>, x: T): seq<T>
  {
    if x in xs then xs else xs + [x]
  }

  /** The distinct elements of `xs`, accumulated left to right as an
      insertion-ordered `Map`'s keys or `Set`'s members are. */
  function FirstSeen<T(==)>(xs: seq<T>): seq<T>
  {
    if |xs| == 0 then [] else AddNew(FirstSeen(xs[..|xs| - 1]), xs[|xs| - 1])
  }

  /** The index of the first occurrence of `x` in `xs`. */
  function FirstIndex<T(==)>(xs: seq<T>, x: T): (i: nat)
    requires x in xs
    ensures i < |xs| && xs[i] == x
    ensures forall j :: 0 <= j < i ==> xs[j] != x
  {
    if xs[0] == x then 0 else 1 + FirstIndex(xs[1..], x)
  }

  lemma FirstIndexPrefix<T>(xs: seq<T>, x: T, y: T)
    requires y in xs
    ensures y in xs + [x] && FirstIndex(xs + [x], y) == FirstIndex(xs, y)
  {
    var i := FirstIndex(xs, y);
    var k := FirstIndex(xs + [x], y);
    assert (xs + [x])[i] == y;
    assert k <= i;
    assert xs[k] == y;
  }

  /** What `FirstSeen` promises about the de-duplicated `d` of `xs`. */
  predicate FirstSeenOf<T(==)>(xs: seq<T>, d: seq<T>)
  {
    && NoDup(d)
    && (forall i :: 0 <= i < |d| ==> d[i] in xs)
    && (forall i :: 0 <= i < |xs| ==> xs[i] in d)
    && (forall i, j :: 0 <= i < j < |d| ==> FirstIndex(xs, d[i]) < FirstIndex(xs, d[j]))
  }

  /** `FirstSeen` keeps exactly the distinct elements of its input, once each,
      ordered by where each first occurs. */
  lemma {:induction false} FirstSeenSpec<T>(xs: seq<T>)
    ensures NoDup(FirstSeen(xs))
    ensures forall i :: 0 <= i < |FirstSeen(xs)| ==> FirstSeen(xs)[i] in xs
    ensures forall i :: 0 <= i < |xs| ==> xs[i] in FirstSeen(xs)
    ensures forall i, j :: 0 <= i < j < |FirstSeen(xs)| ==>
              FirstIndex(xs, FirstSeen(xs)[i]) < FirstIndex(xs, FirstSeen(xs)[j])
    decreases |xs|
  {
    if |xs| > 0 {
      var n := |xs| - 1;
      FirstSeenSpec(xs[..n]);
      assert xs == xs[..n] + [xs[n]];
      if xs[n] in FirstSeen(xs[..n]) {
        FirstSeenSeen(xs[..n], FirstSeen(xs[..n]), xs[n]);
      } else {
        FirstSeenNew(xs[..n], FirstSeen(xs[..n]), xs[n]);
      }
    }
  }

  /** An element seen before leaves the de-duplicated sequence as it is. */
  lemma FirstSeenSeen<T>(p: seq<T>, d: seq<T>, x: T)
    requires FirstSeenOf(p, d) && x in d
    ensures FirstSeenOf(p + [x], d)
  {
    forall k | 0 <= k < |d|
      ensures d[k] in p + [x] && FirstIndex(p + [x], d[k]) == FirstIndex(p, d[k])
    {
      FirstIndexPrefix(p, x, d[k]);
    }
    assert forall i :: 0 <= i < |p + [x]| ==> (p + [x])[i] in d by {
      forall i | 0 <= i < |p + [x]| ensures (p + [x])[i] in d {
        if i < |p| { assert (p + [x])[i] == p[i]; }
      }
    }
  }

  /** A new element goes last, after every element seen before it. */
  lemma FirstSeenNew<T>(p: seq<T>, d: seq<T>, x: T)
    requires FirstSeenOf(p, d) && x !in d
    ensures FirstSeenOf(p + [x], d + [x])
  {
    NoDupAppend(d, x);
    FirstSeenNewCover(p, d, x);
    FirstSeenNewOrder(p, d, x);
  }

  lemma FirstSeenNewCover<T>(p: seq<T>, d: seq<T>, x: T)
    requires forall i :: 0 <= i < |d| ==> d[i] in p
    requires forall i :: 0 <= i < |p| ==> p[i] in d
    ensures forall i :: 0 <= i < |d + [x]| ==> (d + [x])[i] in p + [x]
    ensures forall i :: 0 <= i < |p + [x]| ==> (p + [x])[i] in d + [x]
  {
    forall i | 0 <= i < |p + [x]| ensures (p + [x])[i] in d + [x] {
      if i < |p| { assert (p + [x])[i] == p[i]; }
    }
    forall i | 0 <= i < |d + [x]| ensures (d + [x])[i] in p + [x] {
      if i < |d| { assert (d + [x])[i] == d[i]; }
    }
  }

  lemma FirstSeenNewOrder<T>(p: seq<T>, d: seq<T>, x: T)
    requires forall i :: 0 <= i < |d| ==> d[i] in p
    requires forall i, j :: 0 <= i < j < |d| ==> FirstIndex(p, d[i]) < FirstIndex(p, d[j])
    requires x !in p
    ensures forall i, j :: 0 <= i < j < |d + [x]| ==>
              FirstIndex(p + [x], (d + [x])[i]) < FirstIndex(p + [x], (d + [x])[j])
  {
    var xs := p + [x];
    var d' := d + [x];
    forall k | 0 <= k < |d|
      ensures FirstIndex(xs, d[k]) == FirstIndex(p, d[k]) < |p|
    {
      FirstIndexPrefix(p, x, d[k]);
    }
    assert FirstIndex(xs, x) == |p|;
    forall i, j | 0 <= i < j < |d'| ensures FirstIndex(xs, d'[i]) < FirstIndex(xs, d'[j]) {
      assert d'[i] == d[i];
      if j < |d| { assert d'[j] == d[j]; }
    }
  }

  /** A sequence has at least as many elements as it has distinct elements. */
  lemma {:induction false} DistinctBound<T>(xs: seq<T>)
    ensures |set x | x in xs| <= |xs|
    decreases |xs|
  {
    if |xs| > 0 {
      var n := |xs| - 1;
      DistinctBound(xs[..n]);
      assert (set x | x in xs) == (set x | x in xs[..n]) + {xs[n]} by {
        assert xs == xs[..n] + [xs[n]];
      }
    }
  }
}
