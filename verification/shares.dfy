/** The line shared by the department, expense-category and region
    listings: a row of per-entity NEP and GAA sums, together with the
    overall NEP total, becomes amounts with pesos, the entity's share of the
    total and its NEP-to-GAA percent change, both rounded to two places. */
module Shares {
  import opened Wrappers
  import opened Seqs
  import opened Money

  /** `withBudget && year && type`: the budget variant of a listing is
      chosen only when the flag is set and both strings are non-empty. */
  predicate WantsBudget(withBudget: bool, year: Option<string>, budgetType: Option<string>)
  {
    withBudget && Truthy(year) && Truthy(budgetType)
  }

  /** The plain variant of a listing entry. */
  datatype CodeName = CodeName(code: string, description: string)

  /** A listing is either plain entries or budget lines. */
  datatype Listing<L> = Plain(items: seq<CodeName>) | Budgeted(lines: seq<L>)

  /** One row of per-entity sums, each possibly missing. */
  datatype SumRow = SumRow(code: string, description: string, nep: Option<real>, gaa: Option<real>)

  /** The computed part of a listing line. */
  datatype ShareLine = ShareLine(
    code: string, description: string,
    nep: Money, gaa: Money,
    percentOfTotal: real, percentDiff: real)

  /** The NEP total with its missing-or-zero default. */
  function TotalOf(total: Option<real>): real
  {
    OrZero(total)
  }

  /** The unrounded share of a row in the total. */
  function RawShare(row: SumRow, total: Option<real>): (pct: real)
    ensures TotalOf(total) > 0.0 ==> pct * TotalOf(total) == OrZero(row.nep) * 100.0
    ensures TotalOf(total) <= 0.0 ==> pct == 0.0
  {
    ShareOf(OrZero(row.nep), TotalOf(total))
  }

  /** The line for one row: missing sums read as 0, pesos derived from
      thousands, share and NEP-to-GAA percent under the positive-base
      guards, each rounded to two places. */
  function LineOf(row: SumRow, total: Option<real>): (l: ShareLine)
    ensures l.code == row.code && l.description == row.description
    ensures Derived(l.nep) && l.nep.amount == OrZero(row.nep)
    ensures Derived(l.gaa) && l.gaa.amount == OrZero(row.gaa)
    ensures l.percentOfTotal == Round2(RawShare(row, total))
    ensures -1.0 / 200.0 <= l.percentOfTotal - RawShare(row, total) <= 1.0 / 200.0
    ensures l.percentDiff == Round2(PctChange(l.nep.amount, l.gaa.amount))
    ensures OrZero(row.nep) <= 0.0 ==> l.percentDiff == 0.0
  {
    var nep := OrZero(row.nep);
    var gaa := OrZero(row.gaa);
    ShareLine(row.code, row.description, MoneyOf(nep), MoneyOf(gaa),
              Round2(ShareOf(nep, TotalOf(total))), Round2(PctChange(nep, gaa)))
  }

  /** The NEP sums of the rows, with missing sums read as 0. */
  function RowNeps(rows: seq<SumRow>): (xs: seq<real>)
    ensures |xs| == |rows|
    ensures forall i :: 0 <= i < |rows| ==> xs[i] == OrZero(rows[i].nep)
  {
    seq(|rows|, i requires 0 <= i < |rows| => OrZero(rows[i].nep))
  }

  function RawShares(rows: seq<SumRow>, total: Option<real>): (xs: seq<real>)
    ensures |xs| == |rows|
    ensures forall i :: 0 <= i < |rows| ==> xs[i] == RawShare(rows[i], total)
  {
    seq(|rows|, i requires 0 <= i < |rows| => RawShare(rows[i], total))
  }

  /** The emitted shares of a list of lines. */
  function Percents(ls: seq<ShareLine>): (xs: seq<real>)
    ensures |xs| == |ls|
    ensures forall i :: 0 <= i < |ls| ==> xs[i] == ls[i].percentOfTotal
  {
    seq(|ls|, i requires 0 <= i < |ls| => ls[i].percentOfTotal)
  }

  /** When the total is the sum of the rows, the unrounded shares add up
      to exactly 100 and the emitted ones to within 0.005 per line of 100. */
  lemma SharesOfSumRows(rows: seq<SumRow>, total: Option<real>, ls: seq<ShareLine>)
    requires TotalOf(total) == Sum(RowNeps(rows)) && TotalOf(total) > 0.0
    requires |ls| == |rows|
    requires forall i :: 0 <= i < |rows| ==> ls[i] == LineOf(rows[i], total)
    ensures Sum(RawShares(rows, total)) == 100.0
    ensures -(|rows| as real) / 200.0 <= Sum(Percents(ls)) - 100.0 <= (|rows| as real) / 200.0
  {
    RawSharesSum(rows, total);
    PercentsClose(rows, total, ls);
    HundredClose(RawShares(rows, total), Percents(ls));
  }

  /** The unrounded shares of rows whose sum is the total add up to 100. */
  lemma RawSharesSum(rows: seq<SumRow>, total: Option<real>)
    requires TotalOf(total) == Sum(RowNeps(rows)) && TotalOf(total) > 0.0
    ensures Sum(RawShares(rows, total)) == 100.0
  {
    var parts, raw := RowNeps(rows), RawShares(rows, total);
    forall i | 0 <= i < |parts| ensures raw[i] == ShareOf(parts[i], Sum(parts)) {
      assert raw[i] == RawShare(rows[i], total);
    }
    SharesSumTo100(parts, raw);
  }

  /** Values each within 0.005 of parts that total 100 total 100 up to
      0.005 per value. */
  lemma HundredClose(raw: seq<real>, ps: seq<real>)
    requires Sum(raw) == 100.0 && |ps| == |raw|
    requires forall i :: 0 <= i < |raw| ==> -(1.0 / 200.0) <= ps[i] - raw[i] <= 1.0 / 200.0
    ensures -(|raw| as real) / 200.0 <= Sum(ps) - 100.0 <= (|raw| as real) / 200.0
  {
    SumClose(raw, ps, 1.0 / 200.0);
    assert (1.0 / 200.0) * (|raw| as real) == (|raw| as real) / 200.0;
  }

  /** Each emitted percent is within 0.005 of its unrounded share. */
  lemma PercentsClose(rows: seq<SumRow>, total: Option<real>, ls: seq<ShareLine>)
    requires |ls| == |rows|
    requires forall i :: 0 <= i < |rows| ==> ls[i] == LineOf(rows[i], total)
    ensures |Percents(ls)| == |RawShares(rows, total)|
    ensures forall i :: 0 <= i < |rows| ==>
              -(1.0 / 200.0) <= Percents(ls)[i] - RawShares(rows, total)[i] <= 1.0 / 200.0
  {
    var raw, ps := RawShares(rows, total), Percents(ls);
    forall i | 0 <= i < |rows| ensures -(1.0 / 200.0) <= ps[i] - raw[i] <= 1.0 / 200.0 {
      assert ps[i] == LineOf(rows[i], total).percentOfTotal;
      assert raw[i] == RawShare(rows[i], total);
    }
  }
}
