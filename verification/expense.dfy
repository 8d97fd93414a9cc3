/** The expense classification tree (classification, sub-class, group,
    object) built from per-object NEP/GAA sums, and the per-category budget
    listing. The same tree is built by the department details. */
module Expense {
  import opened Wrappers
  import opened Seqs
  import opened Money
  import opened Grouper
  import opened GroupPaths
  import opened Shares

  /** One row of the per-object expense query. */
  datatype ExpenseRow = ExpenseRow(
    classificationCode: string, classificationDescription: string,
    subClassCode: string, subClassDescription: string,
    groupCode: string, groupDescription: string,
    objectCode: string, objectDescription: string,
    nepBudget: real, gaaBudget: real)

  /** Classification, sub-class and group: the keyed levels above the objects. */
  const Levels: nat := 3

  /** The object leaf a row contributes. */
  function ObjectOf(r: ExpenseRow): (leaf: Node)
    ensures leaf.code == r.objectCode && leaf.description == r.objectDescription
    ensures Derived(leaf.nep) && leaf.nep.amount == r.nepBudget
    ensures Derived(leaf.gaa) && leaf.gaa.amount == r.gaaBudget
    ensures leaf.children == []
  {
    Node(r.objectCode, r.objectDescription, MoneyOf(r.nepBudget), MoneyOf(r.gaaBudget), [])
  }

  /** The key path and leaf of a row. */
  function EntryOf(r: ExpenseRow): (e: Entry)
    ensures |e.path| == Levels
    ensures e.path[0] == Key(r.classificationCode, r.classificationDescription)
    ensures e.path[1] == Key(r.subClassCode, r.subClassDescription)
    ensures e.path[2] == Key(r.groupCode, r.groupDescription)
    ensures e.leaf == ObjectOf(r)
  {
    Entry([Key(r.classificationCode, r.classificationDescription),
           Key(r.subClassCode, r.subClassDescription),
           Key(r.groupCode, r.groupDescription)], ObjectOf(r))
  }

  function EntriesOf(rows: seq<ExpenseRow>): (es: seq<Entry>)
    ensures |es| == |rows|
    ensures forall i :: 0 <= i < |rows| ==> es[i] == EntryOf(rows[i])
    ensures Uniform(es, Levels)
  {
    seq(|rows|, i requires 0 <= i < |rows| => EntryOf(rows[i]))
  }

  function RowNepBudgets(rows: seq<ExpenseRow>): (xs: seq<real>)
    ensures |xs| == |rows|
    ensures forall i :: 0 <= i < |rows| ==> xs[i] == rows[i].nepBudget
  {
    seq(|rows|, i requires 0 <= i < |rows| => rows[i].nepBudget)
  }

  function RowGaaBudgets(rows: seq<ExpenseRow>): (xs: seq<real>)
    ensures |xs| == |rows|
    ensures forall i :: 0 <= i < |rows| ==> xs[i] == rows[i].gaaBudget
  {
    seq(|rows|, i requires 0 <= i < |rows| => rows[i].gaaBudget)
  }

  /** The single pass over the rows: every level's totals are the sums of
      its children, pesos are derived at every level, and the top-level
      totals are the sums over all rows. */
  function BuildExpenseHierarchy(rows: seq<ExpenseRow>): (tree: seq<Node>)
    ensures Valid(tree, Levels)
    ensures Sum(Neps(tree)) == Sum(RowNepBudgets(rows))
    ensures Sum(Gaas(tree)) == Sum(RowGaaBudgets(rows))
  {
    var es := EntriesOf(rows);
    FoldValid(es, Levels);
    assert LeafNeps(es) == RowNepBudgets(rows);
    assert LeafGaas(es) == RowGaaBudgets(rows);
    Fold(es)
  }

  /** The object leaves of the rows with the given codes, in input order. */
  function ObjectsIn(rows: seq<ExpenseRow>, cls: string, sub: string, grp: string): seq<Node>
  {
    if |rows| == 0 then []
    else
      var r := rows[0];
      (if r.classificationCode == cls && r.subClassCode == sub && r.groupCode == grp
       then [ObjectOf(r)] else []) + ObjectsIn(rows[1..], cls, sub, grp)
  }

  lemma {:induction false} LeavesOfRows(rows: seq<ExpenseRow>, cls: string, sub: string, grp: string)
    ensures LeavesOf(EntriesOf(rows), [cls, sub, grp]) == ObjectsIn(rows, cls, sub, grp)
    decreases |rows|
  {
    if |rows| > 0 {
      assert EntriesOf(rows)[1..] == EntriesOf(rows[1..]);
      LeavesOfRows(rows[1..], cls, sub, grp);
      var r := rows[0];
      assert PathCodes(EntryOf(r).path) == [r.classificationCode, r.subClassCode, r.groupCode];
    }
  }

  /** Each row yields exactly one object, under its classification,
      sub-class and group, after the objects of earlier rows of that group. */
  lemma ExpenseObjects(rows: seq<ExpenseRow>, cls: string, sub: string, grp: string)
    ensures LeavesAt(BuildExpenseHierarchy(rows), [cls, sub, grp]) == ObjectsIn(rows, cls, sub, grp)
  {
    FoldLeaves(EntriesOf(rows), [cls, sub, grp], Levels);
    LeavesOfRows(rows, cls, sub, grp);
  }

  /** The node at a classification, sub-class or group prefix exists iff a
      row has that prefix, takes its description from the first such row
      and totals all of them. */
  lemma ExpenseNodes(rows: seq<ExpenseRow>, ks: seq<string>)
    requires 0 < |ks| <= Levels
    ensures InfoOf(At(BuildExpenseHierarchy(rows), ks)) == NodeInfo(EntriesOf(rows), ks)
  {
    FoldAt(EntriesOf(rows), ks, Levels);
  }

  /** At every level the keys appear once each, in first-seen order. */
  lemma ExpenseKeyOrder(rows: seq<ExpenseRow>, ks: seq<string>)
    requires |ks| < Levels
    ensures ChildCodes(BuildExpenseHierarchy(rows), ks) ==
            FirstSeen(KeysAt(Matching(EntriesOf(rows), ks), |ks|))
  {
    FoldChildCodes(EntriesOf(rows), ks, Levels);
  }

  function ClassificationCodes(rows: seq<ExpenseRow>): (cs: seq<string>)
    ensures |cs| == |rows|
    ensures forall i :: 0 <= i < |rows| ==> cs[i] == rows[i].classificationCode
  {
    seq(|rows|, i requires 0 <= i < |rows| => rows[i].classificationCode)
  }

  /** The classifications are the distinct classification codes of the
      rows, once each, in the order the rows first show them. */
  lemma ExpenseClassificationOrder(rows: seq<ExpenseRow>)
    ensures Codes(BuildExpenseHierarchy(rows)) == FirstSeen(ClassificationCodes(rows))
    ensures NoDup(Codes(BuildExpenseHierarchy(rows)))
  {
    var es := EntriesOf(rows);
    TopLevelOrder(es, Levels);
    assert KeysAt(es, 0) == ClassificationCodes(rows);
  }

  // ---------------------------------------------------------------------
  // getAllExpenseCategories

  /** The classification list without a year, or the tree with one. */
  datatype ExpenseCategories = Classifications(items: seq<CodeName>) | Hierarchy(tree: seq<Node>)

  function AllExpenseCategories(year: Option<string>, plain: seq<CodeName>, rows: seq<ExpenseRow>): (r: ExpenseCategories)
    ensures r.Hierarchy? <==> Truthy(year)
    ensures r.Classifications? ==> r.items == plain
    ensures r.Hierarchy? ==> r.tree == BuildExpenseHierarchy(rows) && Valid(r.tree, Levels)
  {
    if !Truthy(year) then Classifications(plain) else Hierarchy(BuildExpenseHierarchy(rows))
  }

  // ---------------------------------------------------------------------
  // getBudgetByExpenseCategory

  /** A category row: its sums and its record count, each possibly missing. */
  datatype CategoryRow = CategoryRow(sums: SumRow, recordCount: Option<nat>)

  /** A row of the top-sub-objects query. */
  datatype SubObjectRow = SubObjectRow(uacsCode: string, description: string, amount: real)

  datatype SubObject = SubObject(uacsCode: string, description: string, amount: Money)

  datatype Category = Category(line: ShareLine, recordCount: nat, topSubObjects: Option<seq<SubObject>>)

  function SubObjectOf(r: SubObjectRow): (s: SubObject)
    ensures s.uacsCode == r.uacsCode && s.description == r.description
    ensures Derived(s.amount) && s.amount.amount == r.amount
  {
    SubObject(r.uacsCode, r.description, MoneyOf(r.amount))
  }

  function SubObjectsOf(rows: seq<SubObjectRow>): (ss: seq<SubObject>)
    ensures |ss| == |rows|
    ensures forall i :: 0 <= i < |rows| ==> ss[i] == SubObjectOf(rows[i])
  {
    seq(|rows|, i requires 0 <= i < |rows| => SubObjectOf(rows[i]))
  }

  /** One line per category row, in order; the top sub-objects, looked up
      by category code through `topOf`, only when they are asked for. */
  function BudgetByExpenseCategory(rows: seq<CategoryRow>, total: Option<real>, includeSubObjects: bool,
                                   topOf: string -> seq<SubObjectRow>): (cs: seq<Category>)
    ensures |cs| == |rows|
    ensures forall i :: 0 <= i < |rows| ==>
              && cs[i].line == LineOf(rows[i].sums, total)
              && cs[i].recordCount == CountOrZero(rows[i].recordCount)
              && (cs[i].topSubObjects.Some? <==> includeSubObjects)
              && (includeSubObjects ==> cs[i].topSubObjects.value == SubObjectsOf(topOf(rows[i].sums.code)))
  {
    seq(|rows|, i requires 0 <= i < |rows| =>
      var line := LineOf(rows[i].sums, total);
      Category(line, CountOrZero(rows[i].recordCount),
               if includeSubObjects then Some(SubObjectsOf(topOf(line.code))) else None))
  }

  /** When the NEP total is the sum of the category rows, the category
      shares add up to 100 up to rounding. */
  lemma CategorySharesSumTo100(rows: seq<CategoryRow>, total: Option<real>, includeSubObjects: bool,
                               topOf: string -> seq<SubObjectRow>)
    requires TotalOf(total) == Sum(RowNeps(MapSeq(rows, (r: CategoryRow) => r.sums))) && TotalOf(total) > 0.0
    ensures var ls := MapSeq(BudgetByExpenseCategory(rows, total, includeSubObjects, topOf), (c: Category) => c.line);
            -(|rows| as real) / 200.0 <= Sum(Percents(ls)) - 100.0 <= (|rows| as real) / 200.0
  {
    var ls := MapSeq(BudgetByExpenseCategory(rows, total, includeSubObjects, topOf), (c: Category) => c.line);
    SharesOfSumRows(MapSeq(rows, (r: CategoryRow) => r.sums), total, ls);
  }
}
