/** The budget service: the filtered total, the per-department shares, the
    NEP/GAA per-department listing, the overall NEP-versus-GAA comparison
    and the three-year summary. */
module Budget {
  import opened Wrappers
  import opened Seqs
  import opened Money

  // ---------------------------------------------------------------------
  // getBudgetTotal

  /** The query parameters: year and type are required by the route, the
      department and region filters are optional. */
  datatype BudgetQuery = BudgetQuery(year: string, budgetType: string, department: Option<string>, region: Option<string>)

  datatype Filters = Filters(year: string, budgetType: string, department: Option<string>, region: Option<string>)

  datatype BudgetTotal = BudgetTotal(total: Money, currency: string, filters: Filters)

  /** A missing or zero sum reads as 0; a filter is echoed only when it was
      given as a non-empty string. */
  function BudgetTotalOf(q: BudgetQuery, sum: Option<real>): (r: BudgetTotal)
    ensures Derived(r.total) && r.total.amount == OrZero(sum)
    ensures r.currency == "PHP"
    ensures r.filters.year == q.year && r.filters.budgetType == q.budgetType
    ensures r.filters.department.Some? <==> Truthy(q.department)
    ensures r.filters.department.Some? ==> r.filters.department == q.department
    ensures r.filters.region.Some? <==> Truthy(q.region)
    ensures r.filters.region.Some? ==> r.filters.region == q.region
  {
    BudgetTotal(MoneyOf(OrZero(sum)), "PHP",
                Filters(q.year, q.budgetType,
                        if Truthy(q.department) then q.department else None,
                        if Truthy(q.region) then q.region else None))
  }

  // ---------------------------------------------------------------------
  // getBudgetByDepartment

  /** One row of the per-department totals query. */
  datatype DeptTotalRow = DeptTotalRow(code: string, name: string, totalBudget: real, recordCount: nat)

  datatype DeptBudget = DeptBudget(code: string, name: string, total: Money, recordCount: nat, percentage: real)

  function RowTotals(rows: seq<DeptTotalRow>): (xs: seq<real>)
    ensures |xs| == |rows|
    ensures forall i :: 0 <= i < |rows| ==> xs[i] == rows[i].totalBudget
  {
    seq(|rows|, i requires 0 <= i < |rows| => rows[i].totalBudget)
  }

  function Percentages(ds: seq<DeptBudget>): (xs: seq<real>)
    ensures |xs| == |ds|
    ensures forall i :: 0 <= i < |ds| ==> xs[i] == ds[i].percentage
  {
    seq(|ds|, i requires 0 <= i < |ds| => ds[i].percentage)
  }

  /** Each department's share of the sum of the returned rows, unrounded. */
  function BudgetByDepartment(rows: seq<DeptTotalRow>): (ds: seq<DeptBudget>)
    ensures |ds| == |rows|
    ensures forall i :: 0 <= i < |rows| ==>
              && ds[i].code == rows[i].code && ds[i].name == rows[i].name
              && Derived(ds[i].total) && ds[i].total.amount == rows[i].totalBudget
              && ds[i].recordCount == rows[i].recordCount
              && ds[i].percentage == ShareOf(rows[i].totalBudget, Sum(RowTotals(rows)))
  {
    var grandTotal := Sum(RowTotals(rows));
    seq(|rows|, i requires 0 <= i < |rows| =>
      DeptBudget(rows[i].code, rows[i].name, MoneyOf(rows[i].totalBudget), rows[i].recordCount,
                 ShareOf(rows[i].totalBudget, grandTotal)))
  }

  /** The percentages add up to exactly 100 when the grand total is
      positive, and are all 0 otherwise. */
  lemma DepartmentPercentagesSumTo100(rows: seq<DeptTotalRow>)
    ensures Sum(RowTotals(rows)) > 0.0 ==> Sum(Percentages(BudgetByDepartment(rows))) == 100.0
    ensures Sum(RowTotals(rows)) <= 0.0 ==> Sum(Percentages(BudgetByDepartment(rows))) == 0.0
  {
    var ps := Percentages(BudgetByDepartment(rows));
    if Sum(RowTotals(rows)) > 0.0 {
      SharesSumTo100(RowTotals(rows), ps);
    } else {
      SharesOfNonPositiveTotal(RowTotals(rows), Sum(RowTotals(rows)), ps);
    }
  }

  // ---------------------------------------------------------------------
  // getBudgetByDepartmentAll

  /** An amount with the number of records behind it. */
  datatype Counted = Counted(amount: Money, recordCount: nat)

  /** One row of the NEP-and-GAA per-department query; the percentage is
      computed by the query. */
  datatype BothRow = BothRow(code: string, name: string, nepTotal: real, nepCount: nat,
                             gaaTotal: real, gaaCount: nat, percentage: real)

  datatype DeptAll =
    | GaaOnly(code: string, name: string, percentage: real, gaa: Counted)
    | NepAndGaa(code: string, name: string, percentage: real, nep: Counted, gaa: Counted,
                changePercent: real, changePesos: real)

  /** The GAA-only variant copies the per-department GAA listing; the other
      pairs NEP with GAA and reports the unrounded percent change and the
      change in pesos. */
  function BudgetByDepartmentAll(includeNepGaa: bool, gaaRows: seq<DeptTotalRow>, rows: seq<BothRow>): (r: seq<DeptAll>)
    ensures !includeNepGaa ==> |r| == |gaaRows| && forall i :: 0 <= i < |r| ==>
              var d := BudgetByDepartment(gaaRows)[i];
              r[i] == GaaOnly(d.code, d.name, d.percentage, Counted(d.total, d.recordCount))
    ensures includeNepGaa ==> |r| == |rows| && forall i :: 0 <= i < |r| ==>
              && r[i].NepAndGaa?
              && r[i].code == rows[i].code && r[i].name == rows[i].name && r[i].percentage == rows[i].percentage
              && r[i].nep == Counted(MoneyOf(rows[i].nepTotal), rows[i].nepCount)
              && r[i].gaa == Counted(MoneyOf(rows[i].gaaTotal), rows[i].gaaCount)
              && r[i].changePesos == (rows[i].gaaTotal - rows[i].nepTotal) * PesosPerThousand
              && r[i].changePercent == PctChange(rows[i].nepTotal, rows[i].gaaTotal)
  {
    if !includeNepGaa then
      var ds := BudgetByDepartment(gaaRows);
      seq(|ds|, i requires 0 <= i < |ds| => GaaOnly(ds[i].code, ds[i].name, ds[i].percentage, Counted(ds[i].total, ds[i].recordCount)))
    else
      seq(|rows|, i requires 0 <= i < |rows| =>
        var nep := rows[i].nepTotal;
        var gaa := rows[i].gaaTotal;
        NepAndGaa(rows[i].code, rows[i].name, rows[i].percentage,
                  Counted(MoneyOf(nep), rows[i].nepCount), Counted(MoneyOf(gaa), rows[i].gaaCount),
                  if nep > 0.0 then (gaa - nep) / nep * 100.0 else 0.0,
                  (gaa - nep) * 1000.0))
  }

  /** In both variants the change in pesos is the difference of the pesos
      amounts, and a department with no NEP shows no percent change. */
  lemma ChangeIsPesosDifference(rows: seq<BothRow>, gaaRows: seq<DeptTotalRow>, i: nat)
    requires i < |rows|
    ensures var d := BudgetByDepartmentAll(true, gaaRows, rows)[i];
            && d.changePesos == d.gaa.amount.amountPesos - d.nep.amount.amountPesos
            && (rows[i].nepTotal <= 0.0 ==> d.changePercent == 0.0)
            && (d.changePercent > 0.0 <==> rows[i].nepTotal > 0.0 && rows[i].gaaTotal > rows[i].nepTotal)
  {
    var d := BudgetByDepartmentAll(true, gaaRows, rows)[i];
    assert d.nep.amount == MoneyOf(rows[i].nepTotal);
    assert d.gaa.amount == MoneyOf(rows[i].gaaTotal);
  }

  // ---------------------------------------------------------------------
  // compareNepVsGaa

  /** The single row of the comparison query. */
  datatype CompareRow = CompareRow(nepTotal: real, nepCount: nat, gaaTotal: real, gaaCount: nat,
                                   deptCode: Option<string>, deptName: Option<string>)

  datatype DepartmentRef = DepartmentRef(code: Option<string>, name: Option<string>)

  datatype NepGaaComparison = NepGaaComparison(
    department: Option<DepartmentRef>, nep: Counted, gaa: Counted,
    differencePesos: real, percentageChange: real, status: string)

  const NoDataFound: string := "No data found for the specified criteria"

  /** No row is an error. Otherwise the difference is in pesos, the percent
      change is unrounded under the positive-NEP guard, the status follows
      its sign, and the department fields appear only for a department
      filter. */
  function CompareNepVsGaa(department: Option<string>, row: Option<CompareRow>): (r: Result<NepGaaComparison>)
    ensures r.Failure? <==> row.None?
    ensures r.Failure? ==> r.error == NoDataFound
    ensures r.Success? ==> var c := r.value; var x := row.value;
      && c.nep == Counted(MoneyOf(x.nepTotal), x.nepCount)
      && c.gaa == Counted(MoneyOf(x.gaaTotal), x.gaaCount)
      && c.differencePesos == c.gaa.amount.amountPesos - c.nep.amount.amountPesos
      && c.percentageChange == PctChange(x.nepTotal, x.gaaTotal)
      && (c.status == "Increased" <==> x.nepTotal > 0.0 && x.gaaTotal > x.nepTotal)
      && (c.status == "Decreased" <==> x.nepTotal > 0.0 && x.gaaTotal < x.nepTotal)
      && (c.status == "No Change" <==> x.nepTotal <= 0.0 || x.gaaTotal == x.nepTotal)
      && (c.department.Some? <==> Truthy(department))
      && (c.department.Some? ==> c.department.value == DepartmentRef(x.deptCode, x.deptName))
  {
    match row
    case None => Failure(NoDataFound)
    case Some(x) =>
      var pct := PctChange(x.nepTotal, x.gaaTotal);
      Success(NepGaaComparison(
        if Truthy(department) then Some(DepartmentRef(x.deptCode, x.deptName)) else None,
        Counted(MoneyOf(x.nepTotal), x.nepCount), Counted(MoneyOf(x.gaaTotal), x.gaaCount),
        (x.gaaTotal - x.nepTotal) * 1000.0, pct, StatusLabel(StatusOf(pct))))
  }

  // ---------------------------------------------------------------------
  // Year strings: `String(Number(year) ± 1)`.

  predicate IsDigit(c: char) { '0' <= c <= '9' }

  predicate IsDigits(s: string) { forall i :: 0 <= i < |s| ==> IsDigit(s[i]) }

  /** The value of a string of decimal digits. */
  function DigitsValue(s: string): (n: nat)
    requires IsDigits(s)
  {
    if |s| == 0 then 0 else DigitsValue(s[..|s| - 1]) * 10 + (s[|s| - 1] as int - '0' as int)
  }

  /** The decimal digits of a natural number, without leading zeros. */
  function NatDigits(n: nat): (s: string)
    ensures |s| > 0 && IsDigits(s)
    ensures |s| > 1 ==> s[0] != '0'
  {
    if n < 10 then [('0' as int + n) as char]
    else NatDigits(n / 10) + [('0' as int + n % 10) as char]
  }

  /** `String(n)` for an integer. */
  function IntString(n: int): string
  {
    if n < 0 then "-" + NatDigits(-n) else NatDigits(n)
  }

  /** `Number(year)` for the year strings the model covers: the empty
      string is 0, a string of decimal digits is its value, anything else is
      not a number. */
  function YearNumber(year: string): (n: Option<int>)
    ensures IsDigits(year) ==> n.Some?
    ensures n.Some? ==> n.value >= 0
  {
    if IsDigits(year) then Some(DigitsValue(year)) else None
  }

  /** `String(Number(year) + delta)`, with "NaN" for a year that is not a
      number: a shifted year that is not negative is written in canonical
      decimal (non-empty, no leading zero) and reads back as the year plus
      `delta`, and a negative one is a minus sign followed by the canonical
      digits of its magnitude. */
  function ShiftedYear(year: string, delta: int): (s: string)
    ensures YearNumber(year).None? ==> s == "NaN"
    ensures YearNumber(year).Some? && YearNumber(year).value + delta >= 0 ==>
              YearNumber(s) == Some(YearNumber(year).value + delta)
    ensures YearNumber(year).Some? && YearNumber(year).value + delta >= 0 ==>
              |s| > 0 && IsDigits(s) && (|s| > 1 ==> s[0] != '0')
    ensures YearNumber(year).Some? && YearNumber(year).value + delta < 0 ==>
              |s| > 1 && s[0] == '-' && YearNumber(s[1..]) == Some(-(YearNumber(year).value + delta))
    ensures YearNumber(year).Some? && YearNumber(year).value + delta < 0 ==>
              IsDigits(s[1..]) && (|s| > 2 ==> s[1] != '0')
  {
    match YearNumber(year)
    case None => "NaN"
    case Some(n) =>
      if n + delta >= 0 then DigitsRoundTrip(n + delta); IntString(n + delta)
      else DigitsRoundTrip(-(n + delta)); assert IntString(n + delta)[1..] == NatDigits(-(n + delta)); IntString(n + delta)
  }

  lemma {:induction false} DigitsRoundTrip(n: nat)
    ensures DigitsValue(NatDigits(n)) == n
    decreases n
  {
    if n >= 10 {
      DigitsRoundTrip(n / 10);
      var s := NatDigits(n);
      assert s[..|s| - 1] == NatDigits(n / 10);
    }
  }

  /** A digit string whose first digit is not 0 has a positive value. */
  lemma {:induction false} LeadingDigitPositive(s: string)
    requires |s| > 0 && IsDigits(s) && s[0] != '0'
    ensures DigitsValue(s) >= 1
    decreases |s|
  {
    if |s| > 1 {
      var t := s[..|s| - 1];
      assert t[0] == s[0];
      LeadingDigitPositive(t);
    }
  }

  /** A non-empty digit string without a leading zero is the decimal form
      of its value: `String(n)` is the only such string reading back as n. */
  lemma {:induction false} CanonicalDigits(s: string)
    requires |s| > 0 && IsDigits(s) && (|s| > 1 ==> s[0] != '0')
    ensures s == NatDigits(DigitsValue(s))
    decreases |s|
  {
    var n := DigitsValue(s);
    if |s| == 1 {
      assert s[..0] == [] && DigitsValue(s[..0]) == 0;
      assert n == s[0] as int - '0' as int;
      assert NatDigits(n) == [s[0]];
    } else {
      var t := s[..|s| - 1];
      assert t[0] == s[0];
      CanonicalDigits(t);
      LeadingDigitPositive(t);
      assert n / 10 == DigitsValue(t) && n % 10 == s[|s| - 1] as int - '0' as int;
      assert s == t + [s[|s| - 1]];
    }
  }

  // ---------------------------------------------------------------------
  // getBudgetSummary

  /** The selected year's totals row. */
  datatype YearRow = YearRow(nepTotal: real, gaaTotal: real, nepRecords: nat, gaaRecords: nat)

  /** A neighbouring year's totals row. */
  datatype TotalsRow = TotalsRow(nepTotal: real, gaaTotal: real)

  /** A comparison as the summary emits it: difference with pesos, the
      percent change rounded, the status from the unrounded percent. */
  datatype Change = Change(difference: Money, percentChange: real, status: string)

  datatype SelectedYear = SelectedYear(year: string, nep: Counted, gaa: Counted, nepGaaComparison: Change)

  datatype OtherYear = OtherYear(year: string, nep: Money, gaa: Money, nepComparison: Change, gaaComparison: Change)

  datatype SummaryStatistics = SummaryStatistics(totalDepartments: nat, totalProjects: nat)

  datatype Summary = Summary(selectedYear: SelectedYear, previousYear: OtherYear, nextYear: OtherYear,
                             statistics: SummaryStatistics)

  /** The change from `base` to `comparand`. */
  function ChangeOf(base: real, comparand: real): (c: Change)
    ensures Derived(c.difference) && c.difference.amount == comparand - base
    ensures c.percentChange == Round2(PctChange(base, comparand))
    ensures c.status == "Increased" <==> base > 0.0 && comparand > base
    ensures c.status == "Decreased" <==> base > 0.0 && comparand < base
    ensures c.status == "No Change" <==> base <= 0.0 || comparand == base
  {
    var cmp := Compare(base, comparand);
    Change(cmp.difference, Round2(cmp.percentChange), StatusLabel(cmp.status))
  }

  function NoBudgetData(year: string): string
  {
    "No budget data found for year " + year
  }

  /** No selected-year row is an error. Otherwise a missing neighbouring
      year reads as 0; the previous year is compared as selected against
      previous, the next year as next against selected. */
  function BudgetSummary(year: string, selected: Option<YearRow>, prev: Option<TotalsRow>, next: Option<TotalsRow>,
                         departments: Option<nat>, projects: Option<nat>): (r: Result<Summary>)
    ensures r.Failure? <==> selected.None?
    ensures r.Failure? ==> r.error == NoBudgetData(year)
    ensures r.Success? ==> var s := r.value; var x := selected.value;
      var prevNep := if prev.Some? then prev.value.nepTotal else 0.0;
      var prevGaa := if prev.Some? then prev.value.gaaTotal else 0.0;
      var nextNep := if next.Some? then next.value.nepTotal else 0.0;
      var nextGaa := if next.Some? then next.value.gaaTotal else 0.0;
      && s.selectedYear == SelectedYear(year, Counted(MoneyOf(x.nepTotal), x.nepRecords),
                                        Counted(MoneyOf(x.gaaTotal), x.gaaRecords), ChangeOf(x.nepTotal, x.gaaTotal))
      && s.previousYear.year == ShiftedYear(year, -1)
      && s.previousYear.nep == MoneyOf(prevNep) && s.previousYear.gaa == MoneyOf(prevGaa)
      && s.previousYear.nepComparison == ChangeOf(prevNep, x.nepTotal)
      && s.previousYear.gaaComparison == ChangeOf(prevGaa, x.gaaTotal)
      && s.nextYear.year == ShiftedYear(year, 1)
      && s.nextYear.nep == MoneyOf(nextNep) && s.nextYear.gaa == MoneyOf(nextGaa)
      && s.nextYear.nepComparison == ChangeOf(x.nepTotal, nextNep)
      && s.nextYear.gaaComparison == ChangeOf(x.gaaTotal, nextGaa)
      && s.statistics == SummaryStatistics(departments.GetOr(0), projects.GetOr(0))
  {
    match selected
    case None => Failure(NoBudgetData(year))
    case Some(x) =>
      var prevNep := if prev.Some? then prev.value.nepTotal else 0.0;
      var prevGaa := if prev.Some? then prev.value.gaaTotal else 0.0;
      var nextNep := if next.Some? then next.value.nepTotal else 0.0;
      var nextGaa := if next.Some? then next.value.gaaTotal else 0.0;
      Success(Summary(
        SelectedYear(year, Counted(MoneyOf(x.nepTotal), x.nepRecords), Counted(MoneyOf(x.gaaTotal), x.gaaRecords),
                     ChangeOf(x.nepTotal, x.gaaTotal)),
        OtherYear(ShiftedYear(year, -1), MoneyOf(prevNep), MoneyOf(prevGaa),
                  ChangeOf(prevNep, x.nepTotal), ChangeOf(prevGaa, x.gaaTotal)),
        OtherYear(ShiftedYear(year, 1), MoneyOf(nextNep), MoneyOf(nextGaa),
                  ChangeOf(x.nepTotal, nextNep), ChangeOf(x.gaaTotal, nextGaa)),
        SummaryStatistics(departments.GetOr(0), projects.GetOr(0))))
  }

  /** Seen from consecutive years the same change is reported once as the
      next-year comparison and once as the previous-year comparison. */
  lemma SummariesAgreeAcrossYears(year: string, selected: YearRow, prev: Option<TotalsRow>,
                                  following: YearRow, after: Option<TotalsRow>,
                                  departments: Option<nat>, projects: Option<nat>)
    requires YearNumber(year).Some? && YearNumber(year).value >= 1
    ensures var s1 := BudgetSummary(year, Some(selected), prev,
                                     Some(TotalsRow(following.nepTotal, following.gaaTotal)), departments, projects).value;
            var s2 := BudgetSummary(ShiftedYear(year, 1), Some(following),
                                     Some(TotalsRow(selected.nepTotal, selected.gaaTotal)), after, departments, projects).value;
            && s1.nextYear.nepComparison == s2.previousYear.nepComparison
            && s1.nextYear.gaaComparison == s2.previousYear.gaaComparison
            && s1.nextYear.year == s2.selectedYear.year
            && YearNumber(s2.previousYear.year) == YearNumber(s1.selectedYear.year)
  {
    var n := YearNumber(year).value;
    assert ShiftedYear(ShiftedYear(year, 1), -1) == IntString(n) by {
      assert YearNumber(ShiftedYear(year, 1)) == Some(n + 1);
    }
    DigitsRoundTrip(n);
  }
}
