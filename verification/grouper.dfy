/** The single-pass grouping of flat rows into an ordered tree with rollups,
    as the expense-classification hierarchy is built: for each row, the node
    for each key along the row's path is looked up in an insertion-ordered
    map (and created, empty, on first sight, taking that row's description);
    the row's amounts are added to every node on the path; the row's leaf is
    appended to the deepest node. Both the proposed (NEP) and the enacted
    (GAA) amounts are accumulated in the same pass. */
module Grouper {
  import opened Wrappers
  import opened Seqs
  import opened Money

  /** One level of a row's grouping path: the key and the description. */
  datatype Key = Key(code: string, description: string)

  /** A node of the tree. A leaf carries a row's own amounts and no children;
      an inner node carries the running totals of the rows under it. */
  datatype Node = Node(code: string, description: string, nep: Money, gaa: Money, children: seq<Node>)

  /** A row as the grouper sees it: its key path from the root and its leaf. */
  datatype Entry = Entry(path: seq<Key>, leaf: Node)

  function Codes(f: seq<Node>): (cs: seq<string>)
    ensures |cs| == |f|
  {
    seq(|f|, i requires 0 <= i < |f| => f[i].code)
  }

  function PathCodes(p: seq<Key>): (cs: seq<string>)
    ensures |cs| == |p|
    ensures forall i :: 0 <= i < |p| ==> cs[i] == p[i].code
  {
    seq(|p|, i requires 0 <= i < |p| => p[i].code)
  }

  function Neps(f: seq<Node>): (xs: seq<real>)
    ensures |xs| == |f|
  {
    seq(|f|, i requires 0 <= i < |f| => f[i].nep.amount)
  }

  function Gaas(f: seq<Node>): (xs: seq<real>)
    ensures |xs| == |f|
  {
    seq(|f|, i requires 0 <= i < |f| => f[i].gaa.amount)
  }

  /** Position of the node keyed `c` (the map lookup), or `|f|` when absent. */
  function IndexOf(f: seq<Node>, c: string): (i: nat)
    ensures i <= |f|
    ensures i < |f| ==> f[i].code == c
    ensures forall j :: 0 <= j < i ==> f[j].code != c
  {
    if |f| == 0 then 0 else if f[0].code == c then 0 else 1 + IndexOf(f[1..], c)
  }

  /** Adds one row to a level of the tree: `has`/`set` a fresh node with zero
      totals, `get` it, add the row's amounts, descend; at the bottom, push the leaf. */
  function Insert(f: seq<Node>, path: seq<Key>, leaf: Node): (g: seq<Node>)
    ensures |g| == |f| || |g| == |f| + 1
    ensures |g| > 0
    decreases |path|
  {
    if |path| == 0 then f + [leaf]
    else
      var i := IndexOf(f, path[0].code);
      var f' := Open(f, path[0]);
      var n := f'[i];
      f'[i := Node(n.code, n.description, Add(n.nep, leaf.nep), Add(n.gaa, leaf.gaa),
                   Insert(n.children, path[1..], leaf))]
  }

  /** The tree after the rows in order (`rows.forEach`). */
  function Fold(es: seq<Entry>): seq<Node>
  {
    if |es| == 0 then [] else Insert(Fold(es[..|es| - 1]), es[|es| - 1].path, es[|es| - 1].leaf)
  }

  /** A row's leaf: its own amounts, with pesos derived, and no children. */
  predicate LeafRow(leaf: Node) {
    leaf.children == [] && Derived(leaf.nep) && Derived(leaf.gaa)
  }

  /** Every row has a path of `depth` keys and a leaf with its amounts. */
  predicate Uniform(es: seq<Entry>, depth: nat) {
    forall k :: 0 <= k < |es| ==> |es[k].path| == depth && LeafRow(es[k].leaf)
  }

  // ---------------------------------------------------------------------
  // Rollup: the shape every tree built this way has.

  /** A forest whose nodes sit `depth` levels above the leaves: keys are
      distinct at every keyed level, pesos are derived everywhere, and each
      inner node's totals are the sums of its children's. */
  predicate Valid(f: seq<Node>, depth: nat)
    decreases depth, 1
  {
    (forall i :: 0 <= i < |f| ==> Derived(f[i].nep) && Derived(f[i].gaa)) &&
    (depth == 0 ==> forall i :: 0 <= i < |f| ==> f[i].children == []) &&
    (depth > 0 ==> NoDup(Codes(f)) && forall i :: 0 <= i < |f| ==> RolledUp(f[i], depth))
  }

  predicate RolledUp(n: Node, depth: nat)
    requires depth > 0
    decreases depth, 0
  {
    && n.children != []
    && n.nep.amount == Sum(Neps(n.children))
    && n.gaa.amount == Sum(Gaas(n.children))
    && Valid(n.children, depth - 1)
  }

  lemma IndexOfAbsent(f: seq<Node>, c: string)
    ensures IndexOf(f, c) == |f| <==> c !in Codes(f)
  {
    if c in Codes(f) {
      var j :| 0 <= j < |f| && Codes(f)[j] == c;
      assert f[j].code == c;
    }
    if IndexOf(f, c) < |f| {
      assert Codes(f)[IndexOf(f, c)] == c;
    }
  }

  /** Replacing one rolled-up node by another with the same key keeps a level valid. */
  lemma ValidUpdate(f: seq<Node>, i: nat, x: Node, depth: nat)
    requires depth > 0 && i < |f| && x.code == f[i].code
    requires NoDup(Codes(f))
    requires forall j :: 0 <= j < |f| && j != i ==>
               Derived(f[j].nep) && Derived(f[j].gaa) && RolledUp(f[j], depth)
    requires Derived(x.nep) && Derived(x.gaa) && RolledUp(x, depth)
    ensures Valid(f[i := x], depth)
  {
    assert Codes(f[i := x]) == Codes(f);
  }

  /** The level a row's first key is looked up in, with a fresh node for it
      when the key is new. */
  function Open(f: seq<Node>, k: Key): (f': seq<Node>)
    ensures IndexOf(f, k.code) < |f'|
    ensures f' == f || |f'| == |f| + 1
  {
    if IndexOf(f, k.code) < |f| then f else f + [Node(k.code, k.description, Zero, Zero, [])]
  }

  lemma OpenFacts(f: seq<Node>, k: Key, depth: nat)
    requires depth > 0 && Valid(f, depth)
    ensures IndexOf(f, k.code) < |Open(f, k)|
    ensures NoDup(Codes(Open(f, k)))
    ensures forall j :: 0 <= j < |Open(f, k)| && j != IndexOf(f, k.code) ==>
              Derived(Open(f, k)[j].nep) && Derived(Open(f, k)[j].gaa) && RolledUp(Open(f, k)[j], depth)
    ensures Sum(Neps(Open(f, k))) == Sum(Neps(f)) && Sum(Gaas(Open(f, k))) == Sum(Gaas(f))
    ensures var n := Open(f, k)[IndexOf(f, k.code)];
            Valid(n.children, depth - 1) && n.code == k.code &&
            n.nep.amount == Sum(Neps(n.children)) && n.gaa.amount == Sum(Gaas(n.children))
  {
    var i := IndexOf(f, k.code);
    IndexOfAbsent(f, k.code);
    if i == |f| {
      OpenNew(f, k);
      assert Valid([], depth - 1);
    } else {
      assert Open(f, k) == f;
      assert RolledUp(f[i], depth);
    }
  }

  /** A new key appends a node with zero totals, leaving the level's sums
      unchanged and its keys distinct. */
  lemma OpenNew(f: seq<Node>, k: Key)
    requires NoDup(Codes(f)) && k.code !in Codes(f)
    ensures Open(f, k) == f + [Node(k.code, k.description, Zero, Zero, [])]
    ensures NoDup(Codes(Open(f, k)))
    ensures Sum(Neps(Open(f, k))) == Sum(Neps(f)) && Sum(Gaas(Open(f, k))) == Sum(Gaas(f))
  {
    IndexOfAbsent(f, k.code);
    var x := Node(k.code, k.description, Zero, Zero, []);
    AppendNode(f, x);
    SumAppend(Neps(f), 0.0);
    SumAppend(Gaas(f), 0.0);
    NoDupAppend(Codes(f), k.code);
  }

  lemma AppendNode(f: seq<Node>, x: Node)
    ensures Codes(f + [x]) == Codes(f) + [x.code]
    ensures Neps(f + [x]) == Neps(f) + [x.nep.amount]
    ensures Gaas(f + [x]) == Gaas(f) + [x.gaa.amount]
  {
  }

  lemma InsertLeafValid(f: seq<Node>, leaf: Node)
    requires Valid(f, 0)
    requires LeafRow(leaf)
    ensures Valid(Insert(f, [], leaf), 0)
  {
    assert Insert(f, [], leaf) == f + [leaf];
  }

  lemma AmountsUpdate(f: seq<Node>, i: nat, x: Node)
    requires i < |f|
    ensures Neps(f[i := x]) == Neps(f)[i := x.nep.amount]
    ensures Gaas(f[i := x]) == Gaas(f)[i := x.gaa.amount]
  {
  }

  /** Adding a row adds its amounts to the sums of the level it enters. */
  lemma InsertSums(f: seq<Node>, path: seq<Key>, leaf: Node)
    ensures Sum(Neps(Insert(f, path, leaf))) == Sum(Neps(f)) + leaf.nep.amount
    ensures Sum(Gaas(Insert(f, path, leaf))) == Sum(Gaas(f)) + leaf.gaa.amount
  {
    if |path| == 0 {
      assert Neps(f + [leaf]) == Neps(f) + [leaf.nep.amount];
      assert Gaas(f + [leaf]) == Gaas(f) + [leaf.gaa.amount];
      SumAppend(Neps(f), leaf.nep.amount);
      SumAppend(Gaas(f), leaf.gaa.amount);
    } else {
      var i := IndexOf(f, path[0].code);
      var f' := Open(f, path[0]);
      if i == |f| {
        assert Neps(f') == Neps(f) + [0.0];
        assert Gaas(f') == Gaas(f) + [0.0];
        SumAppend(Neps(f), 0.0);
        SumAppend(Gaas(f), 0.0);
      }
      var n := f'[i];
      var n' := Node(n.code, n.description, Add(n.nep, leaf.nep), Add(n.gaa, leaf.gaa),
                     Insert(n.children, path[1..], leaf));
      AmountsUpdate(f', i, n');
      SumUpdate(Neps(f'), i, n'.nep.amount);
      SumUpdate(Gaas(f'), i, n'.gaa.amount);
    }
  }

  /** A node whose children gain one row's worth of amounts stays rolled up
      once its own totals gain the same amounts. */
  lemma RolledUpStep(n: Node, leaf: Node, kids: seq<Node>, depth: nat)
    requires depth > 0
    requires n.nep.amount == Sum(Neps(n.children)) && n.gaa.amount == Sum(Gaas(n.children))
    requires kids != [] && Valid(kids, depth - 1)
    requires Sum(Neps(kids)) == Sum(Neps(n.children)) + leaf.nep.amount
    requires Sum(Gaas(kids)) == Sum(Gaas(n.children)) + leaf.gaa.amount
    ensures RolledUp(Node(n.code, n.description, Add(n.nep, leaf.nep), Add(n.gaa, leaf.gaa), kids), depth)
  {
  }

  /** One level of `InsertValid`, given that the level below stays valid. */
  lemma InsertValidLevel(f: seq<Node>, path: seq<Key>, leaf: Node, depth: nat, kids: seq<Node>)
    requires depth > 0 && |path| == depth && Valid(f, depth)
    requires kids == Open(f, path[0])[IndexOf(f, path[0].code)].children
    requires Valid(Insert(kids, path[1..], leaf), depth - 1)
    ensures Valid(Insert(f, path, leaf), depth)
  {
    var i := IndexOf(f, path[0].code);
    var f' := Open(f, path[0]);
    OpenFacts(f, path[0], depth);
    var n := f'[i];
    var kids' := Insert(kids, path[1..], leaf);
    InsertSums(kids, path[1..], leaf);
    RolledUpStep(n, leaf, kids', depth);
    ValidUpdate(f', i, Node(n.code, n.description, Add(n.nep, leaf.nep), Add(n.gaa, leaf.gaa), kids'), depth);
  }

  /** Adding a row keeps the tree valid. */
  lemma {:induction false} InsertValid(f: seq<Node>, path: seq<Key>, leaf: Node, depth: nat)
    requires |path| == depth && Valid(f, depth)
    requires LeafRow(leaf)
    ensures Valid(Insert(f, path, leaf), depth)
    decreases depth
  {
    if depth == 0 {
      InsertLeafValid(f, leaf);
    } else {
      var kids := OpenedChildren(f, path[0], depth);
      InsertValid(kids, path[1..], leaf, depth - 1);
      InsertValidLevel(f, path, leaf, depth, kids);
    }
  }

  /** The children of the node a key opens form a valid level below. */
  lemma OpenedChildren(f: seq<Node>, k: Key, depth: nat) returns (kids: seq<Node>)
    requires depth > 0 && Valid(f, depth)
    ensures kids == Open(f, k)[IndexOf(f, k.code)].children
    ensures Valid(kids, depth - 1)
  {
    OpenFacts(f, k, depth);
    kids := Open(f, k)[IndexOf(f, k.code)].children;
  }

  function LeafNeps(es: seq<Entry>): (xs: seq<real>)
    ensures |xs| == |es|
    ensures forall i :: 0 <= i < |es| ==> xs[i] == es[i].leaf.nep.amount
  {
    seq(|es|, i requires 0 <= i < |es| => es[i].leaf.nep.amount)
  }

  function LeafGaas(es: seq<Entry>): (xs: seq<real>)
    ensures |xs| == |es|
    ensures forall i :: 0 <= i < |es| ==> xs[i] == es[i].leaf.gaa.amount
  {
    seq(|es|, i requires 0 <= i < |es| => es[i].leaf.gaa.amount)
  }

  lemma LeafAmountsAppend(es: seq<Entry>)
    requires |es| > 0
    ensures Sum(LeafNeps(es)) == Sum(LeafNeps(es[..|es| - 1])) + es[|es| - 1].leaf.nep.amount
    ensures Sum(LeafGaas(es)) == Sum(LeafGaas(es[..|es| - 1])) + es[|es| - 1].leaf.gaa.amount
  {
    var n := |es| - 1;
    assert LeafNeps(es) == LeafNeps(es[..n]) + [es[n].leaf.nep.amount];
    assert LeafGaas(es) == LeafGaas(es[..n]) + [es[n].leaf.gaa.amount];
    SumAppend(LeafNeps(es[..n]), es[n].leaf.nep.amount);
    SumAppend(LeafGaas(es[..n]), es[n].leaf.gaa.amount);
  }

  lemma UniformPrefix(es: seq<Entry>, depth: nat)
    requires |es| > 0 && Uniform(es, depth)
    ensures Uniform(es[..|es| - 1], depth)
    ensures |es[|es| - 1].path| == depth && LeafRow(es[|es| - 1].leaf)
  {
  }

  /** Rollup: the folded tree is valid at every level, and the top-level
      totals add up to the sum over all rows. */
  lemma FoldValid(es: seq<Entry>, depth: nat)
    requires Uniform(es, depth)
    ensures Valid(Fold(es), depth)
    ensures Sum(Neps(Fold(es))) == Sum(LeafNeps(es))
    ensures Sum(Gaas(Fold(es))) == Sum(LeafGaas(es))
  {
    FoldKeepsValid(es, depth);
    FoldSums(es);
  }

  lemma {:induction false} FoldKeepsValid(es: seq<Entry>, depth: nat)
    requires Uniform(es, depth)
    ensures Valid(Fold(es), depth)
    decreases |es|
  {
    if |es| == 0 {
      assert Valid([], depth);
    } else {
      var n := |es| - 1;
      var e := es[n];
      UniformPrefix(es, depth);
      FoldKeepsValid(es[..n], depth);
      InsertValid(Fold(es[..n]), e.path, e.leaf, depth);
    }
  }

  lemma {:induction false} FoldSums(es: seq<Entry>)
    ensures Sum(Neps(Fold(es))) == Sum(LeafNeps(es))
    ensures Sum(Gaas(Fold(es))) == Sum(LeafGaas(es))
    decreases |es|
  {
    if |es| > 0 {
      var n := |es| - 1;
      FoldSums(es[..n]);
      InsertSums(Fold(es[..n]), es[n].path, es[n].leaf);
      LeafAmountsAppend(es);
    }
  }

}
