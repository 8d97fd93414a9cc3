/** What the single-pass grouping produces, stated against the input rows
    alone: which leaves each group holds and in what order, which
    description and totals each node carries, and the order of the keys at
    every level. */
module GroupPaths {
  import opened Wrappers
  import opened Seqs
  import opened Money
  import opened Grouper

  // ---------------------------------------------------------------------
  // Looking things up in a built tree.

  /** The leaf list reached by following the keys `ks` down from the top. */
  function LeavesAt(f: seq<Node>, ks: seq<string>): seq<Node>
    decreases |ks|
  {
    if |ks| == 0 then f
    else
      var i := IndexOf(f, ks[0]);
      if i == |f| then [] else LeavesAt(f[i].children, ks[1..])
  }

  /** The node reached by following the non-empty key prefix `ks`. */
  function At(f: seq<Node>, ks: seq<string>): Option<Node>
    requires |ks| > 0
    decreases |ks|
  {
    var i := IndexOf(f, ks[0]);
    if i == |f| then None
    else if |ks| == 1 then Some(f[i])
    else At(f[i].children, ks[1..])
  }

  /** The keys, in order, of the children of the node at prefix `ks`
      (of the top level when `ks` is empty). */
  function ChildCodes(f: seq<Node>, ks: seq<string>): seq<string>
    decreases |ks|
  {
    if |ks| == 0 then Codes(f)
    else
      var i := IndexOf(f, ks[0]);
      if i == |f| then [] else ChildCodes(f[i].children, ks[1..])
  }

  /** What a node reports about itself. */
  datatype Info = Info(description: string, nep: real, gaa: real)

  function InfoOf(o: Option<Node>): Option<Info>
  {
    match o
    case None => None
    case Some(n) => Some(Info(n.description, n.nep.amount, n.gaa.amount))
  }

  // ---------------------------------------------------------------------
  // The same things computed from the rows directly.

  /** The rows whose key path starts with `ks`, in input order. */
  function Matching(es: seq<Entry>, ks: seq<string>): (m: seq<Entry>)
    ensures |m| <= |es|
    ensures forall i :: 0 <= i < |m| ==> ks <= PathCodes(m[i].path)
  {
    if |es| == 0 then []
    else (if ks <= PathCodes(es[0].path) then [es[0]] else []) + Matching(es[1..], ks)
  }

  /** The leaves of the rows whose key path is exactly `ks`, in input order. */
  function LeavesOf(es: seq<Entry>, ks: seq<string>): seq<Node>
  {
    if |es| == 0 then []
    else (if PathCodes(es[0].path) == ks then [es[0].leaf] else []) + LeavesOf(es[1..], ks)
  }

  /** The node a prefix should yield: none when no row has that prefix;
      otherwise the description the first such row gives at that level and
      the totals over all such rows. */
  function NodeInfo(es: seq<Entry>, ks: seq<string>): Option<Info>
    requires |ks| > 0
  {
    GroupInfo(Matching(es, ks), |ks|)
  }

  /** The node the rows `m` of one group yield at level `k`. */
  function GroupInfo(m: seq<Entry>, k: nat): Option<Info>
    requires k > 0
    requires forall i :: 0 <= i < |m| ==> k <= |m[i].path|
  {
    if |m| == 0 then None
    else Some(Info(m[0].path[k - 1].description, Sum(LeafNeps(m)), Sum(LeafGaas(m))))
  }

  /** The key each row gives at level `k`. */
  function KeysAt(es: seq<Entry>, k: nat): (cs: seq<string>)
    ensures |cs| == |es|
  {
    seq(|es|, i requires 0 <= i < |es| => if k < |es[i].path| then es[i].path[k].code else "")
  }

  // ---------------------------------------------------------------------
  // Appending a row to the input.

  lemma {:induction false} MatchingAppend(es: seq<Entry>, e: Entry, ks: seq<string>)
    ensures Matching(es + [e], ks) == Matching(es, ks) + (if ks <= PathCodes(e.path) then [e] else [])
    decreases |es|
  {
    if |es| > 0 {
      assert (es + [e])[1..] == es[1..] + [e];
      MatchingAppend(es[1..], e, ks);
    }
  }

  lemma {:induction false} LeavesOfAppend(es: seq<Entry>, e: Entry, ks: seq<string>)
    ensures LeavesOf(es + [e], ks) == LeavesOf(es, ks) + (if PathCodes(e.path) == ks then [e.leaf] else [])
    decreases |es|
  {
    if |es| > 0 {
      assert (es + [e])[1..] == es[1..] + [e];
      LeavesOfAppend(es[1..], e, ks);
    }
  }

  lemma FirstSeenAppend<T>(xs: seq<T>, x: T)
    ensures FirstSeen(xs + [x]) == AddNew(FirstSeen(xs), x)
  {
    assert (xs + [x])[..|xs|] == xs;
  }

  // ---------------------------------------------------------------------
  // How one insertion changes the lookups.

  lemma IndexOfIs(s: seq<Node>, c: string, j: nat)
    requires j <= |s|
    requires j < |s| ==> s[j].code == c
    requires forall l :: 0 <= l < j ==> s[l].code != c
    ensures IndexOf(s, c) == j
  {
  }

  /** Lookups in a level after the node for key `k` has been opened and replaced. */
  lemma StepIndex(f: seq<Node>, k: Key, x: Node, c: string)
    requires x.code == k.code
    ensures var g := Open(f, k)[IndexOf(f, k.code) := x];
            && (c == k.code ==> IndexOf(g, c) == IndexOf(f, k.code))
            && (c != k.code && IndexOf(f, c) < |f| ==>
                  IndexOf(g, c) == IndexOf(f, c) && g[IndexOf(f, c)] == f[IndexOf(f, c)])
            && (c != k.code && IndexOf(f, c) == |f| ==> IndexOf(g, c) == |g|)
  {
    var i := IndexOf(f, k.code);
    var f' := Open(f, k);
    var g := f'[i := x];
    if c == k.code {
      IndexOfIs(g, c, i);
    } else if IndexOf(f, c) < |f| {
      IndexOfIs(g, c, IndexOf(f, c));
    } else {
      IndexOfIs(g, c, |g|);
    }
  }

  lemma PrefixStep(ks: seq<string>, path: seq<Key>)
    requires |ks| > 0 && |path| > 0
    ensures ks <= PathCodes(path) <==> ks[0] == path[0].code && ks[1..] <= PathCodes(path[1..])
    ensures |ks| == |path| ==> (PathCodes(path) == ks <==> ks[0] == path[0].code && PathCodes(path[1..]) == ks[1..])
  {
    assert PathCodes(path) == [path[0].code] + PathCodes(path[1..]);
    assert ks == [ks[0]] + ks[1..];
  }

  lemma {:induction false} InsertLeaves(f: seq<Node>, path: seq<Key>, leaf: Node, ks: seq<string>)
    requires |ks| == |path|
    ensures LeavesAt(Insert(f, path, leaf), ks) ==
            LeavesAt(f, ks) + (if PathCodes(path) == ks then [leaf] else [])
    decreases |path|
  {
    if |path| > 0 {
      var k := path[0];
      var i := IndexOf(f, k.code);
      var n := Open(f, k)[i];
      var kids := Insert(n.children, path[1..], leaf);
      var x := Node(n.code, n.description, Add(n.nep, leaf.nep), Add(n.gaa, leaf.gaa), kids);
      assert Insert(f, path, leaf) == Open(f, k)[i := x];
      StepIndex(f, k, x, ks[0]);
      PrefixStep(ks, path);
      if ks[0] == k.code {
        InsertLeaves(n.children, path[1..], leaf, ks[1..]);
      }
    } else {
      assert PathCodes(path) == ks;
    }
  }

  /** One row's effect on the node at a prefix it belongs to. */
  function Accumulate(o: Option<Info>, description: string, leaf: Node): Info
  {
    match o
    case None => Info(description, 0.0 + leaf.nep.amount, 0.0 + leaf.gaa.amount)
    case Some(info) => Info(info.description, info.nep + leaf.nep.amount, info.gaa + leaf.gaa.amount)
  }

  lemma {:induction false} InsertAt(f: seq<Node>, path: seq<Key>, leaf: Node, ks: seq<string>)
    requires 0 < |ks| <= |path|
    ensures InfoOf(At(Insert(f, path, leaf), ks)) ==
            if ks <= PathCodes(path) then Some(Accumulate(InfoOf(At(f, ks)), path[|ks| - 1].description, leaf))
            else InfoOf(At(f, ks))
    decreases |path|
  {
    PrefixStep(ks, path);
    if ks[0] != path[0].code {
      InsertAtOther(f, path, leaf, ks);
    } else if |ks| == 1 {
      assert ks == [path[0].code];
      assert ks[1..] == [];
      InsertAtHere(f, path, leaf);
    } else {
      var n := InsertAtBelow(f, path, leaf, ks);
      InsertAt(n.children, path[1..], leaf, ks[1..]);
      assert path[1..][|ks| - 2] == path[|ks| - 1];
    }
  }

  /** A prefix that leaves the row's path at the first key sees no change. */
  lemma InsertAtOther(f: seq<Node>, path: seq<Key>, leaf: Node, ks: seq<string>)
    requires 0 < |ks| <= |path| && ks[0] != path[0].code
    ensures At(Insert(f, path, leaf), ks) == At(f, ks)
  {
    var k := path[0];
    var i := IndexOf(f, k.code);
    var n := Open(f, k)[i];
    var x := Node(n.code, n.description, Add(n.nep, leaf.nep), Add(n.gaa, leaf.gaa), Insert(n.children, path[1..], leaf));
    assert Insert(f, path, leaf) == Open(f, k)[i := x];
    StepIndex(f, k, x, ks[0]);
  }

  /** The row's first key: the node gains the row's amounts, or is created
      with the key's description and just those amounts. */
  lemma InsertAtHere(f: seq<Node>, path: seq<Key>, leaf: Node)
    requires |path| > 0
    ensures InfoOf(At(Insert(f, path, leaf), [path[0].code])) ==
            Some(Accumulate(InfoOf(At(f, [path[0].code])), path[0].description, leaf))
  {
    var k := path[0];
    var i := IndexOf(f, k.code);
    var n := Open(f, k)[i];
    var x := Node(n.code, n.description, Add(n.nep, leaf.nep), Add(n.gaa, leaf.gaa), Insert(n.children, path[1..], leaf));
    assert Insert(f, path, leaf) == Open(f, k)[i := x];
    StepIndex(f, k, x, k.code);
    OpenedNode(f, k);
  }

  /** Deeper along the row's path, both lookups continue in the children
      of the node the first key opens. */
  lemma InsertAtBelow(f: seq<Node>, path: seq<Key>, leaf: Node, ks: seq<string>) returns (n: Node)
    requires 1 < |ks| <= |path| && ks[0] == path[0].code
    ensures n == Open(f, path[0])[IndexOf(f, path[0].code)]
    ensures At(Insert(f, path, leaf), ks) == At(Insert(n.children, path[1..], leaf), ks[1..])
    ensures At(f, ks) == At(n.children, ks[1..])
  {
    var k := path[0];
    var i := IndexOf(f, k.code);
    n := Open(f, k)[i];
    var x := Node(n.code, n.description, Add(n.nep, leaf.nep), Add(n.gaa, leaf.gaa), Insert(n.children, path[1..], leaf));
    assert Insert(f, path, leaf) == Open(f, k)[i := x];
    StepIndex(f, k, x, k.code);
    OpenedNode(f, k);
  }

  /** The node a key opens is the existing node with that key, or a fresh
      one with no totals and no children. */
  lemma OpenedNode(f: seq<Node>, k: Key)
    ensures var i := IndexOf(f, k.code);
            i < |f| ==> Open(f, k)[i] == f[i] && At(f, [k.code]) == Some(f[i])
    ensures var i := IndexOf(f, k.code);
            i == |f| ==> Open(f, k)[i] == Node(k.code, k.description, Zero, Zero, []) && At(f, [k.code]) == None
  {
  }

  lemma {:induction false} InsertChildCodes(f: seq<Node>, path: seq<Key>, leaf: Node, ks: seq<string>)
    requires |ks| < |path|
    ensures ChildCodes(Insert(f, path, leaf), ks) ==
            if ks <= PathCodes(path) then AddNew(ChildCodes(f, ks), path[|ks|].code)
            else ChildCodes(f, ks)
    decreases |path|
  {
    var k := path[0];
    var i := IndexOf(f, k.code);
    var f' := Open(f, k);
    var n := f'[i];
    var kids := Insert(n.children, path[1..], leaf);
    var x := Node(n.code, n.description, Add(n.nep, leaf.nep), Add(n.gaa, leaf.gaa), kids);
    var g := f'[i := x];
    assert Insert(f, path, leaf) == g;
    if |ks| == 0 {
      IndexOfAbsent(f, k.code);
      assert Codes(g) == Codes(f');
      if i == |f| {
        assert Codes(f') == Codes(f) + [k.code];
      }
    } else {
      StepIndex(f, k, x, ks[0]);
      PrefixStep(ks, path);
      if ks[0] == k.code {
        InsertChildCodes(n.children, path[1..], leaf, ks[1..]);
        assert path[1..][|ks| - 1] == path[|ks|];
      }
    }
  }

  // ---------------------------------------------------------------------
  // The folded tree against the rows.

  /** Each row yields exactly one leaf, under the group its key path names,
      after the leaves of earlier rows of that group. */
  lemma {:induction false} FoldLeaves(es: seq<Entry>, ks: seq<string>, depth: nat)
    requires Uniform(es, depth) && |ks| == depth
    ensures LeavesAt(Fold(es), ks) == LeavesOf(es, ks)
    decreases |es|
  {
    if |es| > 0 {
      var n := |es| - 1;
      assert es == es[..n] + [es[n]];
      assert Uniform(es[..n], depth);
      FoldLeaves(es[..n], ks, depth);
      InsertLeaves(Fold(es[..n]), es[n].path, es[n].leaf, ks);
      LeavesOfAppend(es[..n], es[n], ks);
    }
  }

  lemma GroupInfoAppend(m: seq<Entry>, e: Entry, k: nat)
    requires 0 < k <= |e.path|
    requires forall i :: 0 <= i < |m| ==> k <= |m[i].path|
    ensures GroupInfo(m + [e], k) == Some(Accumulate(GroupInfo(m, k), e.path[k - 1].description, e.leaf))
  {
    var m' := m + [e];
    assert m'[..|m|] == m;
    LeafAmountsAppend(m');
    if |m| > 0 {
      assert m'[0] == m[0];
    }
  }

  /** One more row changes the node a prefix should yield exactly as
      inserting that row changes the built node. */
  lemma NodeInfoAppend(p: seq<Entry>, e: Entry, ks: seq<string>)
    requires 0 < |ks| <= |e.path|
    ensures NodeInfo(p + [e], ks) ==
            if ks <= PathCodes(e.path) then Some(Accumulate(NodeInfo(p, ks), e.path[|ks| - 1].description, e.leaf))
            else NodeInfo(p, ks)
  {
    MatchingAppend(p, e, ks);
    var m := Matching(p, ks);
    if ks <= PathCodes(e.path) {
      assert Matching(p + [e], ks) == m + [e];
      GroupInfoAppend(m, e, |ks|);
    } else {
      assert Matching(p + [e], ks) == m;
    }
  }

  /** A node exists at a prefix iff some row has that prefix; it carries
      the description of the first such row and the totals of all of them. */
  lemma {:induction false} FoldAt(es: seq<Entry>, ks: seq<string>, depth: nat)
    requires Uniform(es, depth) && 0 < |ks| <= depth
    ensures InfoOf(At(Fold(es), ks)) == NodeInfo(es, ks)
    decreases |es|
  {
    if |es| > 0 {
      var n := |es| - 1;
      var p := es[..n];
      assert es == p + [es[n]];
      FoldAt(p, ks, depth);
      InsertAt(Fold(p), es[n].path, es[n].leaf, ks);
      NodeInfoAppend(p, es[n], ks);
    }
  }

  lemma KeysAtAppend(m: seq<Entry>, e: Entry, k: nat)
    requires k < |e.path|
    ensures KeysAt(m + [e], k) == KeysAt(m, k) + [e.path[k].code]
  {
    var m' := m + [e];
    assert forall i :: 0 <= i < |m| ==> m'[i] == m[i];
  }

  /** One more row adds its key to the keys under a prefix it belongs to,
      unless that key is already there. */
  lemma KeysAppend(p: seq<Entry>, e: Entry, ks: seq<string>)
    requires |ks| < |e.path|
    ensures FirstSeen(KeysAt(Matching(p + [e], ks), |ks|)) ==
            if ks <= PathCodes(e.path) then AddNew(FirstSeen(KeysAt(Matching(p, ks), |ks|)), e.path[|ks|].code)
            else FirstSeen(KeysAt(Matching(p, ks), |ks|))
  {
    MatchingAppend(p, e, ks);
    var m := Matching(p, ks);
    if ks <= PathCodes(e.path) {
      assert Matching(p + [e], ks) == m + [e];
      KeysAtAppend(m, e, |ks|);
      FirstSeenAppend(KeysAt(m, |ks|), e.path[|ks|].code);
    } else {
      assert Matching(p + [e], ks) == m;
    }
  }

  /** At every level the keys appear once each, in the order in which the
      rows under that node first show them. */
  lemma {:induction false} FoldChildCodes(es: seq<Entry>, ks: seq<string>, depth: nat)
    requires Uniform(es, depth) && |ks| < depth
    ensures ChildCodes(Fold(es), ks) == FirstSeen(KeysAt(Matching(es, ks), |ks|))
    decreases |es|
  {
    if |es| > 0 {
      var n := |es| - 1;
      var p := es[..n];
      assert es == p + [es[n]];
      FoldChildCodes(p, ks, depth);
      InsertChildCodes(Fold(p), es[n].path, es[n].leaf, ks);
      KeysAppend(p, es[n], ks);
    }
  }

  /** The top level: one node per distinct first key, once each, in the
      order the rows first show them. */
  lemma TopLevelOrder(es: seq<Entry>, depth: nat)
    requires Uniform(es, depth) && depth > 0
    ensures Codes(Fold(es)) == FirstSeen(KeysAt(es, 0))
    ensures NoDup(Codes(Fold(es)))
    ensures forall i :: 0 <= i < |es| ==> es[i].path[0].code in Codes(Fold(es))
    ensures forall i :: 0 <= i < |Fold(es)| ==> Fold(es)[i].code in KeysAt(es, 0)
  {
    FoldChildCodes(es, [], depth);
    MatchingAll(es);
    FirstSeenSpec(KeysAt(es, 0));
    var ks := KeysAt(es, 0);
    forall i | 0 <= i < |es| ensures es[i].path[0].code in Codes(Fold(es)) {
      assert ks[i] == es[i].path[0].code;
    }
    forall i | 0 <= i < |Fold(es)| ensures Fold(es)[i].code in ks {
      assert Codes(Fold(es))[i] == Fold(es)[i].code;
    }
  }

  lemma {:induction false} MatchingAll(es: seq<Entry>)
    ensures Matching(es, []) == es
    decreases |es|
  {
    if |es| > 0 {
      MatchingAll(es[1..]);
      assert [] <= PathCodes(es[0].path);
    }
  }
}
