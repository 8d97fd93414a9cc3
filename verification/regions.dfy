/** The region listing with its budget shares, and the regional allocation
    with its optional per-department breakdown. */
module Regions {
  import opened Wrappers
  import opened Seqs
  import opened Money
  import opened Shares

  // ---------------------------------------------------------------------
  // getAllRegions

  /** The plain list without the budget variant; with it, one share line
      per region row, in order. */
  function AllRegions(withBudget: bool, year: Option<string>, budgetType: Option<string>,
                      total: Option<real>, rows: seq<SumRow>, plain: seq<CodeName>): (r: Listing<ShareLine>)
    ensures r.Budgeted? <==> WantsBudget(withBudget, year, budgetType)
    ensures r.Plain? ==> r.items == plain
    ensures r.Budgeted? ==> |r.lines| == |rows|
    ensures r.Budgeted? ==> forall i :: 0 <= i < |rows| ==> r.lines[i] == LineOf(rows[i], total)
  {
    if WantsBudget(withBudget, year, budgetType) then
      Budgeted(seq(|rows|, i requires 0 <= i < |rows| => LineOf(rows[i], total)))
    else Plain(plain)
  }

  /** When the NEP total is the sum of the region rows, the emitted shares
      add up to 100 up to rounding; a region with no NEP records reports
      no NEP-to-GAA change. */
  lemma RegionSharesSumTo100(withBudget: bool, year: Option<string>, budgetType: Option<string>,
                             total: Option<real>, rows: seq<SumRow>, plain: seq<CodeName>)
    requires WantsBudget(withBudget, year, budgetType)
    requires TotalOf(total) == Sum(RowNeps(rows)) && TotalOf(total) > 0.0
    ensures var ls := AllRegions(withBudget, year, budgetType, total, rows, plain).lines;
            && -(|rows| as real) / 200.0 <= Sum(Percents(ls)) - 100.0 <= (|rows| as real) / 200.0
            && forall i :: 0 <= i < |rows| && rows[i].nep.None? ==> ls[i].percentDiff == 0.0
  {
    SharesOfSumRows(rows, total, AllRegions(withBudget, year, budgetType, total, rows, plain).lines);
  }

  // ---------------------------------------------------------------------
  // getRegionalAllocation

  /** A region row of the allocation query; the share is computed by the
      query. */
  datatype AllocationRow = AllocationRow(regionCode: string, regionName: string, totalBudget: Option<real>,
                                         recordCount: Option<nat>, percentage: Option<real>)

  /** A row of the per-region department breakdown query. */
  datatype DepartmentAmountRow = DepartmentAmountRow(departmentCode: string, departmentName: string, amount: real)

  datatype DepartmentAmount = DepartmentAmount(departmentCode: string, departmentName: string, amount: Money)

  datatype Allocation = Allocation(regionCode: string, regionName: string, totalBudget: Money,
                                   recordCount: nat, percentage: real,
                                   byDepartment: Option<seq<DepartmentAmount>>)

  function DepartmentAmountOf(r: DepartmentAmountRow): (d: DepartmentAmount)
    ensures d.departmentCode == r.departmentCode && d.departmentName == r.departmentName
    ensures Derived(d.amount) && d.amount.amount == r.amount
  {
    DepartmentAmount(r.departmentCode, r.departmentName, MoneyOf(r.amount))
  }

  function DepartmentAmountsOf(rows: seq<DepartmentAmountRow>): (ds: seq<DepartmentAmount>)
    ensures |ds| == |rows|
    ensures forall i :: 0 <= i < |rows| ==> ds[i] == DepartmentAmountOf(rows[i])
  {
    seq(|rows|, i requires 0 <= i < |rows| => DepartmentAmountOf(rows[i]))
  }

  /** One region row with missing figures read as 0; the breakdown,
      looked up by region code through `deptsOf`, is attached only when it
      is asked for. */
  function AllocationOf(r: AllocationRow, groupByDepartment: bool,
                        deptsOf: string -> seq<DepartmentAmountRow>): (a: Allocation)
    ensures a.regionCode == r.regionCode && a.regionName == r.regionName
    ensures Derived(a.totalBudget) && a.totalBudget.amount == OrZero(r.totalBudget)
    ensures a.recordCount == CountOrZero(r.recordCount)
    ensures a.percentage == OrZero(r.percentage)
    ensures a.byDepartment.Some? <==> groupByDepartment
    ensures groupByDepartment ==> a.byDepartment.value == DepartmentAmountsOf(deptsOf(r.regionCode))
  {
    Allocation(r.regionCode, r.regionName, MoneyOf(OrZero(r.totalBudget)), CountOrZero(r.recordCount),
               OrZero(r.percentage),
               if groupByDepartment then Some(DepartmentAmountsOf(deptsOf(r.regionCode))) else None)
  }

  /** One allocation per region row, in order. */
  function RegionalAllocation(rows: seq<AllocationRow>, groupByDepartment: bool,
                              deptsOf: string -> seq<DepartmentAmountRow>): (allocations: seq<Allocation>)
    ensures |allocations| == |rows|
    ensures forall i :: 0 <= i < |rows| ==> allocations[i] == AllocationOf(rows[i], groupByDepartment, deptsOf)
  {
    seq(|rows|, i requires 0 <= i < |rows| => AllocationOf(rows[i], groupByDepartment, deptsOf))
  }

  function AllocationAmounts(allocations: seq<Allocation>): (xs: seq<real>)
    ensures |xs| == |allocations|
    ensures forall i :: 0 <= i < |allocations| ==> xs[i] == allocations[i].totalBudget.amount
  {
    seq(|allocations|, i requires 0 <= i < |allocations| => allocations[i].totalBudget.amount)
  }

  function AllocationPesos(allocations: seq<Allocation>): (xs: seq<real>)
    ensures |xs| == |allocations|
    ensures forall i :: 0 <= i < |allocations| ==> xs[i] == allocations[i].totalBudget.amountPesos
  {
    seq(|allocations|, i requires 0 <= i < |allocations| => allocations[i].totalBudget.amountPesos)
  }

  function RowBudgets(rows: seq<AllocationRow>): (xs: seq<real>)
    ensures |xs| == |rows|
    ensures forall i :: 0 <= i < |rows| ==> xs[i] == OrZero(rows[i].totalBudget)
  {
    seq(|rows|, i requires 0 <= i < |rows| => OrZero(rows[i].totalBudget))
  }

  /** The allocations account for every row's budget, and their pesos
      column totals a thousand times their amount column. */
  lemma AllocationTotals(rows: seq<AllocationRow>, groupByDepartment: bool,
                         deptsOf: string -> seq<DepartmentAmountRow>)
    ensures var allocations := RegionalAllocation(rows, groupByDepartment, deptsOf);
            && Sum(AllocationAmounts(allocations)) == Sum(RowBudgets(rows))
            && Sum(AllocationPesos(allocations)) == Sum(RowBudgets(rows)) * PesosPerThousand
  {
    var allocations := RegionalAllocation(rows, groupByDepartment, deptsOf);
    assert AllocationAmounts(allocations) == RowBudgets(rows);
    SumScale(AllocationAmounts(allocations), AllocationPesos(allocations), PesosPerThousand);
  }
}
