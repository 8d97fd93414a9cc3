/** Grouping items into lists by a key, as a `Map<K, T[]>` filled by
    `if (!m.has(k)) m.set(k, []); m.get(k)!.push(x)` and read back with
    `m.get(k) || []`. */
module Buckets {
  import opened Seqs

  /** The items of `xs` whose key is `k`, in input order. */
  function KeyFilter<T(==), K(==)>(xs: seq<T>, key: T -> K, k: K): (ys: seq<T>)
    ensures |ys| <= |xs|
    ensures forall i :: 0 <= i < |ys| ==> key(ys[i]) == k
    ensures forall i :: 0 <= i < |ys| ==> ys[i] in xs
    ensures forall i :: 0 <= i < |xs| && key(xs[i]) == k ==> xs[i] in ys
  {
    if |xs| == 0 then []
    else (if key(xs[0]) == k then [xs[0]] else []) + KeyFilter(xs[1..], key, k)
  }

  /** One pass over `xs`, appending each item to the list under its key. */
  function BucketBy<T, K(==)>(xs: seq<T>, key: T -> K): map<K, seq<T>>
  {
    if |xs| == 0 then map[]
    else
      var m := BucketBy(xs[..|xs| - 1], key);
      var x := xs[|xs| - 1];
      m[key(x) := Lookup(m, key(x)) + [x]]
  }

  /** `m.get(k) || []`. */
  function Lookup<T, K(==)>(m: map<K, seq<T>>, k: K): (ys: seq<T>)
    ensures k !in m ==> ys == []
    ensures k in m ==> ys == m[k]
  {
    if k in m then m[k] else []
  }

  lemma {:induction false} KeyFilterAppend<T, K>(xs: seq<T>, x: T, key: T -> K, k: K)
    ensures KeyFilter(xs + [x], key, k) == KeyFilter(xs, key, k) + (if key(x) == k then [x] else [])
    decreases |xs|
  {
    var last := if key(x) == k then [x] else [];
    if |xs| == 0 {
      assert xs + [x] == [x];
      assert KeyFilter([x], key, k) == last + KeyFilter([], key, k);
    } else {
      var ys := xs + [x];
      assert ys[0] == xs[0];
      assert ys[1..] == xs[1..] + [x];
      KeyFilterAppend(xs[1..], x, key, k);
      var head := if key(xs[0]) == k then [xs[0]] else [];
      assert KeyFilter(ys, key, k) == head + KeyFilter(ys[1..], key, k);
      assert KeyFilter(xs, key, k) == head + KeyFilter(xs[1..], key, k);
      assert head + (KeyFilter(xs[1..], key, k) + last) == (head + KeyFilter(xs[1..], key, k)) + last;
    }
  }

  /** The test "has key `k`". */
  function KeyIs<T, K(==)>(key: T -> K, k: K): T -> bool
  {
    (x: T) => key(x) == k
  }

  /** The items with key `k` in input order: the `i`-th is the `i`-th item
      of `xs` whose key is `k`. */
  lemma {:induction false} KeyFilterOrder<T(!new), K>(xs: seq<T>, key: T -> K, k: K)
    ensures KeyFilter(xs, key, k) == Filter(xs, KeyIs(key, k))
    ensures |KeyFilter(xs, key, k)| == |Passing(xs, KeyIs(key, k))|
    ensures forall i :: 0 <= i < |KeyFilter(xs, key, k)| ==>
              KeyFilter(xs, key, k)[i] == xs[Passing(xs, KeyIs(key, k))[i]]
    decreases |xs|
  {
    if |xs| > 0 {
      var n := |xs| - 1;
      assert xs == xs[..n] + [xs[n]];
      KeyFilterOrder(xs[..n], key, k);
      KeyFilterAppend(xs[..n], xs[n], key, k);
      assert Filter(xs, KeyIs(key, k)) == Filter(xs[..n], KeyIs(key, k)) + (if key(xs[n]) == k then [xs[n]] else []);
    }
  }

  /** Reading a key back gives exactly the items with that key, in input
      order, and nothing for a key no item has. */
  lemma {:induction false} LookupBucket<T, K>(xs: seq<T>, key: T -> K, k: K)
    ensures Lookup(BucketBy(xs, key), k) == KeyFilter(xs, key, k)
    decreases |xs|
  {
    if |xs| > 0 {
      var n := |xs| - 1;
      assert xs == xs[..n] + [xs[n]];
      LookupBucket(xs[..n], key, k);
      KeyFilterAppend(xs[..n], xs[n], key, k);
    }
  }

  /** `LookupBucket` at every key. */
  lemma LookupBuckets<T, K>(xs: seq<T>, key: T -> K)
    ensures forall k :: Lookup(BucketBy(xs, key), k) == KeyFilter(xs, key, k)
  {
    forall k ensures Lookup(BucketBy(xs, key), k) == KeyFilter(xs, key, k) {
      LookupBucket(xs, key, k);
    }
  }
}
