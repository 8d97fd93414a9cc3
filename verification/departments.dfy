/** The department listing, the lookup by code and the department details
    page: agencies, operating-unit classes, the NEP/GAA comparison, the
    regional and funding-source breakdowns, the expense tree, projects and
    the statistics over them. */
module Departments {
  import opened Wrappers
  import opened Seqs
  import opened Money
  import opened Grouper
  import opened Shares
  import opened Expense

  // ---------------------------------------------------------------------
  // getAllDepartments

  /** A department row of the budget variant: its sums and its agency count. */
  datatype DepartmentRow = DepartmentRow(sums: SumRow, agencyCount: nat)

  datatype DepartmentLine = DepartmentLine(line: ShareLine, totalAgencies: nat)

  /** The budget lines when budget figures are asked for with a year and a
      type, otherwise the plain code and description list. */
  function AllDepartments(withBudget: bool, year: Option<string>, budgetType: Option<string>,
                          total: Option<real>, rows: seq<DepartmentRow>, plain: seq<CodeName>): (r: Listing<DepartmentLine>)
    ensures r.Budgeted? <==> WantsBudget(withBudget, year, budgetType)
    ensures r.Plain? ==> r.items == plain
    ensures r.Budgeted? ==> |r.lines| == |rows|
    ensures r.Budgeted? ==> forall i :: 0 <= i < |rows| ==>
              r.lines[i].line == LineOf(rows[i].sums, total) && r.lines[i].totalAgencies == rows[i].agencyCount
  {
    if WantsBudget(withBudget, year, budgetType) then
      Budgeted(seq(|rows|, i requires 0 <= i < |rows| => DepartmentLine(LineOf(rows[i].sums, total), rows[i].agencyCount)))
    else Plain(plain)
  }

  /** When the NEP total is the sum of the department rows, the emitted
      shares add up to 100 up to rounding. */
  lemma DepartmentSharesSumTo100(withBudget: bool, year: Option<string>, budgetType: Option<string>,
                                 total: Option<real>, rows: seq<DepartmentRow>, plain: seq<CodeName>)
    requires WantsBudget(withBudget, year, budgetType)
    requires TotalOf(total) == Sum(RowNeps(MapSeq(rows, (r: DepartmentRow) => r.sums))) && TotalOf(total) > 0.0
    ensures var ls := MapSeq(AllDepartments(withBudget, year, budgetType, total, rows, plain).lines, (d: DepartmentLine) => d.line);
            -(|rows| as real) / 200.0 <= Sum(Percents(ls)) - 100.0 <= (|rows| as real) / 200.0
  {
    var ls := MapSeq(AllDepartments(withBudget, year, budgetType, total, rows, plain).lines, (d: DepartmentLine) => d.line);
    SharesOfSumRows(MapSeq(rows, (r: DepartmentRow) => r.sums), total, ls);
  }

  // ---------------------------------------------------------------------
  // getDepartmentByCode

  /** The row the lookup query returns; `totalBudget` is only read in the
      budget variant. */
  datatype DepartmentCodeRow = DepartmentCodeRow(code: string, description: string, totalBudget: Option<real>)

  datatype Department = Department(code: string, description: string, totalBudget: Option<Money>)

  /** No row gives no department; a row gives its code and description,
      with the total budget (missing or zero read as 0) only in the budget
      variant. */
  function DepartmentByCode(withBudget: bool, year: Option<string>, budgetType: Option<string>,
                            row: Option<DepartmentCodeRow>): (r: Option<Department>)
    ensures r.Some? <==> row.Some?
    ensures r.Some? ==> r.value.code == row.value.code && r.value.description == row.value.description
    ensures r.Some? ==> (r.value.totalBudget.Some? <==> WantsBudget(withBudget, year, budgetType))
    ensures r.Some? && r.value.totalBudget.Some? ==>
              Derived(r.value.totalBudget.value) && r.value.totalBudget.value.amount == OrZero(row.value.totalBudget)
  {
    match row
    case None => None
    case Some(d) =>
      Some(Department(d.code, d.description,
                      if WantsBudget(withBudget, year, budgetType) then Some(MoneyOf(OrZero(d.totalBudget))) else None))
  }

  // ---------------------------------------------------------------------
  // getDepartmentDetails

  datatype DetailsRow = DetailsRow(code: string, description: string, abbreviation: Option<string>)

  /** NEP and GAA amounts of one entity. */
  datatype NepGaa = NepGaa(nep: Money, gaa: Money)

  function NepGaaOf(nep: real, gaa: real): (b: NepGaa)
    ensures Derived(b.nep) && b.nep.amount == nep
    ensures Derived(b.gaa) && b.gaa.amount == gaa
  {
    NepGaa(MoneyOf(nep), MoneyOf(gaa))
  }

  /** An agency row; the sums are read only when a year is given. */
  datatype AgencyRow = AgencyRow(code: string, description: string, uacsCode: string, nepBudget: real, gaaBudget: real)

  datatype Agency = Agency(code: string, description: string, uacsCode: string, budget: Option<NepGaa>)

  /** An operating-unit class row; the sums are read only when a year is given. */
  datatype ClassRow = ClassRow(code: string, description: string, status: Option<string>,
                               operatingUnitCount: nat, nepBudget: real, gaaBudget: real)

  datatype OperatingUnitClass = OperatingUnitClass(code: string, description: string, status: Option<string>,
                                                   operatingUnitCount: nat, budget: Option<NepGaa>)

  /** The department-wide NEP/GAA totals row. */
  datatype TotalsRow = TotalsRow(nepTotal: Option<real>, gaaTotal: Option<real>)

  datatype BudgetComparison = BudgetComparison(budget: NepGaa, difference: Money, percentChange: real, status: Status)

  /** A region or funding-source breakdown row. */
  datatype DiffRow = DiffRow(code: string, description: string, nepBudget: real, gaaBudget: real)

  datatype DiffLine = DiffLine(code: string, description: string, budget: NepGaa, difference: Money, percentChange: real)

  datatype FundingRow = FundingRow(sums: DiffRow, fundClusterCode: Option<string>)

  datatype FundingLine = FundingLine(line: DiffLine, fundClusterCode: Option<string>)

  datatype ProjectRow = ProjectRow(prexcFpapId: string, description: string, nepBudget: real, gaaBudget: real)

  datatype Project = Project(prexcFpapId: string, description: string, budget: NepGaa)

  datatype Statistics = Statistics(
    totalAgencies: nat, totalOperatingUnitClasses: nat, totalRegions: nat,
    totalFundingSources: nat, totalExpenseClassifications: nat, totalProjects: nat)

  datatype Details = Details(
    code: string, description: string, abbreviation: Option<string>,
    agencies: seq<Agency>, operatingUnitClasses: seq<OperatingUnitClass>,
    budgetComparison: Option<BudgetComparison>,
    regions: Option<seq<DiffLine>>, fundingSources: Option<seq<FundingLine>>,
    expenseClassifications: Option<seq<Node>>, projects: Option<seq<Project>>,
    statistics: Statistics)

  /** Everything the details queries return. */
  datatype DetailsInputs = DetailsInputs(
    department: Option<DetailsRow>,
    agencies: seq<AgencyRow>, operatingUnitClasses: seq<ClassRow>,
    totals: Option<TotalsRow>, regions: seq<DiffRow>, fundingSources: seq<FundingRow>,
    expenses: seq<ExpenseRow>, projects: seq<ProjectRow>)

  function AgencyOf(a: AgencyRow, withYear: bool): (r: Agency)
    ensures r.code == a.code && r.description == a.description && r.uacsCode == a.uacsCode
    ensures r.budget.Some? <==> withYear
    ensures withYear ==> r.budget.value == NepGaaOf(a.nepBudget, a.gaaBudget)
  {
    Agency(a.code, a.description, a.uacsCode, if withYear then Some(NepGaaOf(a.nepBudget, a.gaaBudget)) else None)
  }

  function ClassOf(c: ClassRow, withYear: bool): (r: OperatingUnitClass)
    ensures r.code == c.code && r.description == c.description && r.status == c.status
    ensures r.operatingUnitCount == c.operatingUnitCount
    ensures r.budget.Some? <==> withYear
    ensures withYear ==> r.budget.value == NepGaaOf(c.nepBudget, c.gaaBudget)
  {
    OperatingUnitClass(c.code, c.description, c.status, c.operatingUnitCount,
                       if withYear then Some(NepGaaOf(c.nepBudget, c.gaaBudget)) else None)
  }

  /** A missing totals row and a missing or zero sum all read as 0. */
  function NepTotalOf(t: Option<TotalsRow>): (x: real)
    ensures t.None? ==> x == 0.0
    ensures t.Some? ==> x == OrZero(t.value.nepTotal)
  {
    if t.Some? then OrZero(t.value.nepTotal) else 0.0
  }

  function GaaTotalOf(t: Option<TotalsRow>): (x: real)
    ensures t.None? ==> x == 0.0
    ensures t.Some? ==> x == OrZero(t.value.gaaTotal)
  {
    if t.Some? then OrZero(t.value.gaaTotal) else 0.0
  }

  /** The department comparison: GAA minus NEP, the percent change rounded
      for display, and a status taken from the unrounded percent. */
  function BudgetComparisonOf(t: Option<TotalsRow>): (c: BudgetComparison)
    ensures c.budget == NepGaaOf(NepTotalOf(t), GaaTotalOf(t))
    ensures Derived(c.difference) && c.difference.amount == GaaTotalOf(t) - NepTotalOf(t)
    ensures c.percentChange == Round2(PctChange(NepTotalOf(t), GaaTotalOf(t)))
    ensures c.status == Increased <==> NepTotalOf(t) > 0.0 && GaaTotalOf(t) > NepTotalOf(t)
    ensures c.status == Decreased <==> NepTotalOf(t) > 0.0 && GaaTotalOf(t) < NepTotalOf(t)
    ensures c.status == NoChange <==> NepTotalOf(t) <= 0.0 || GaaTotalOf(t) == NepTotalOf(t)
  {
    var nep := NepTotalOf(t);
    var gaa := GaaTotalOf(t);
    var cmp := Compare(nep, gaa);
    BudgetComparison(NepGaaOf(nep, gaa), cmp.difference, Round2(cmp.percentChange), cmp.status)
  }

  /** A breakdown line: GAA minus NEP with pesos, and the rounded percent
      change under the positive-NEP guard. */
  function DiffLineOf(r: DiffRow): (l: DiffLine)
    ensures l.code == r.code && l.description == r.description
    ensures l.budget == NepGaaOf(r.nepBudget, r.gaaBudget)
    ensures Derived(l.difference) && l.difference.amount == r.gaaBudget - r.nepBudget
    ensures l.percentChange == Round2(PctChange(r.nepBudget, r.gaaBudget))
    ensures r.nepBudget <= 0.0 ==> l.percentChange == 0.0
  {
    var cmp := Compare(r.nepBudget, r.gaaBudget);
    DiffLine(r.code, r.description, NepGaaOf(r.nepBudget, r.gaaBudget), cmp.difference, Round2(cmp.percentChange))
  }

  function ProjectOf(p: ProjectRow): (r: Project)
    ensures r.prexcFpapId == p.prexcFpapId && r.description == p.description
    ensures r.budget == NepGaaOf(p.nepBudget, p.gaaBudget)
  {
    Project(p.prexcFpapId, p.description, NepGaaOf(p.nepBudget, p.gaaBudget))
  }

  /** `list?.length || 0`. */
  function LengthOr0<T>(xs: Option<seq<T>>): (n: nat)
    ensures xs.None? ==> n == 0
    ensures xs.Some? ==> n == |xs.value|
  {
    if xs.Some? then |xs.value| else 0
  }

  function AgenciesOf(rows: seq<AgencyRow>, withYear: bool): (agencies: seq<Agency>)
    ensures |agencies| == |rows|
    ensures forall i :: 0 <= i < |rows| ==> agencies[i] == AgencyOf(rows[i], withYear)
  {
    seq(|rows|, i requires 0 <= i < |rows| => AgencyOf(rows[i], withYear))
  }

  function ClassesOf(rows: seq<ClassRow>, withYear: bool): (cs: seq<OperatingUnitClass>)
    ensures |cs| == |rows|
    ensures forall i :: 0 <= i < |rows| ==> cs[i] == ClassOf(rows[i], withYear)
  {
    seq(|rows|, i requires 0 <= i < |rows| => ClassOf(rows[i], withYear))
  }

  function DiffLinesOf(rows: seq<DiffRow>): (ls: seq<DiffLine>)
    ensures |ls| == |rows|
    ensures forall i :: 0 <= i < |rows| ==> ls[i] == DiffLineOf(rows[i])
  {
    seq(|rows|, i requires 0 <= i < |rows| => DiffLineOf(rows[i]))
  }

  function FundingLinesOf(rows: seq<FundingRow>): (ls: seq<FundingLine>)
    ensures |ls| == |rows|
    ensures forall i :: 0 <= i < |rows| ==>
              ls[i] == FundingLine(DiffLineOf(rows[i].sums), rows[i].fundClusterCode)
  {
    seq(|rows|, i requires 0 <= i < |rows| => FundingLine(DiffLineOf(rows[i].sums), rows[i].fundClusterCode))
  }

  function ProjectsOf(rows: seq<ProjectRow>): (ps: seq<Project>)
    ensures |ps| == |rows|
    ensures forall i :: 0 <= i < |rows| ==> ps[i] == ProjectOf(rows[i])
  {
    seq(|rows|, i requires 0 <= i < |rows| => ProjectOf(rows[i]))
  }

  /** No department row gives no details. With a department, agencies and
      operating-unit classes are always listed, with budgets only for a
      year; the comparison and the breakdowns exist exactly when a year is
      given; each statistic is the length of its list, 0 for an absent one. */
  function DepartmentDetails(year: Option<string>, inputs: DetailsInputs): (r: Option<Details>)
    ensures r.Some? <==> inputs.department.Some?
    ensures r.Some? ==> r.value.code == inputs.department.value.code
    ensures r.Some? ==> r.value.description == inputs.department.value.description
    ensures r.Some? ==> r.value.abbreviation == inputs.department.value.abbreviation
    ensures r.Some? ==> r.value.agencies == AgenciesOf(inputs.agencies, Truthy(year))
    ensures r.Some? ==> r.value.operatingUnitClasses == ClassesOf(inputs.operatingUnitClasses, Truthy(year))
    ensures r.Some? ==> (r.value.budgetComparison.Some? <==> Truthy(year))
    ensures r.Some? ==> (r.value.regions.Some? <==> Truthy(year))
    ensures r.Some? ==> (r.value.fundingSources.Some? <==> Truthy(year))
    ensures r.Some? ==> (r.value.expenseClassifications.Some? <==> Truthy(year))
    ensures r.Some? ==> (r.value.projects.Some? <==> Truthy(year))
    ensures r.Some? && Truthy(year) ==> r.value.budgetComparison.value == BudgetComparisonOf(inputs.totals)
    ensures r.Some? && Truthy(year) ==> r.value.regions.value == DiffLinesOf(inputs.regions)
    ensures r.Some? && Truthy(year) ==> r.value.fundingSources.value == FundingLinesOf(inputs.fundingSources)
    ensures r.Some? && Truthy(year) ==> r.value.expenseClassifications.value == BuildExpenseHierarchy(inputs.expenses)
    ensures r.Some? && Truthy(year) ==> Valid(r.value.expenseClassifications.value, Levels)
    ensures r.Some? && Truthy(year) ==> r.value.projects.value == ProjectsOf(inputs.projects)
    ensures r.Some? ==> r.value.statistics.totalAgencies == |r.value.agencies|
    ensures r.Some? ==> r.value.statistics.totalOperatingUnitClasses == |r.value.operatingUnitClasses|
    ensures r.Some? ==> r.value.statistics.totalRegions == LengthOr0(r.value.regions)
    ensures r.Some? ==> r.value.statistics.totalFundingSources == LengthOr0(r.value.fundingSources)
    ensures r.Some? ==> r.value.statistics.totalExpenseClassifications == LengthOr0(r.value.expenseClassifications)
    ensures r.Some? ==> r.value.statistics.totalProjects == LengthOr0(r.value.projects)
  {
    match inputs.department
    case None => None
    case Some(dept) =>
      var withYear := Truthy(year);
      var agencies := AgenciesOf(inputs.agencies, withYear);
      var classes := ClassesOf(inputs.operatingUnitClasses, withYear);
      var comparison := if withYear then Some(BudgetComparisonOf(inputs.totals)) else None;
      var regions := if withYear then Some(DiffLinesOf(inputs.regions)) else None;
      var funding := if withYear then Some(FundingLinesOf(inputs.fundingSources)) else None;
      var expenses := if withYear then Some(BuildExpenseHierarchy(inputs.expenses)) else None;
      var projects := if withYear then Some(ProjectsOf(inputs.projects)) else None;
      Some(Details(dept.code, dept.description, dept.abbreviation, agencies, classes,
                   comparison, regions, funding, expenses, projects,
                   Statistics(|agencies|, |classes|, LengthOr0(regions), LengthOr0(funding),
                              LengthOr0(expenses), LengthOr0(projects))))
  }

  /** Without a year only agencies and operating-unit classes are counted. */
  lemma DetailsWithoutYear(year: Option<string>, inputs: DetailsInputs)
    requires inputs.department.Some? && !Truthy(year)
    ensures var s := DepartmentDetails(year, inputs).value.statistics;
            s == Statistics(|inputs.agencies|, |inputs.operatingUnitClasses|, 0, 0, 0, 0)
  {
  }

  /** With a year, the comparison and the regional breakdown agree: a
      region whose NEP is not positive, like a department whose NEP total is
      not positive, reports 0 percent and no change. */
  lemma ZeroNepReportsNoChange(t: Option<TotalsRow>, r: DiffRow)
    requires NepTotalOf(t) <= 0.0 && r.nepBudget <= 0.0
    ensures BudgetComparisonOf(t).percentChange == 0.0 && BudgetComparisonOf(t).status == NoChange
    ensures DiffLineOf(r).percentChange == 0.0
  {
    assert Round2(0.0) == 0.0;
  }
}
