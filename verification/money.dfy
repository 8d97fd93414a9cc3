/** Money and comparison arithmetic repeated inline across the services.
    Budget amounts are recorded in thousands of pesos; every figure the
    services emit pairs a thousands amount with its value in pesos. The
    proposed (NEP) and enacted (GAA) variants, or two fiscal years, are
    compared by difference, percent change and a three-way status. */
module Money {
  import opened Seqs
  import opened Wrappers

  /** Pesos per recorded unit: amounts are stored in thousands. */
  const PesosPerThousand: real := 1000.0

  /** An amount in thousands together with its value in pesos. */
  datatype Money = Money(amount: real, amountPesos: real)

  /** The pesos value is derived from the amount, never set on its own. */
  predicate Derived(m: Money) {
    m.amountPesos == m.amount * PesosPerThousand
  }

  /** `{ amount: x, amountPesos: x * 1000 }`. */
  function MoneyOf(amount: real): (m: Money)
    ensures Derived(m) && m.amount == amount
  {
    Money(amount, amount * 1000.0)
  }

  /** Zero pesos. */
  const Zero: Money := MoneyOf(0.0)

  /** Adds two amounts in thousands and derives pesos again from the sum. */
  function Add(a: Money, b: Money): (r: Money)
    ensures Derived(r) && r.amount == a.amount + b.amount
    ensures Derived(a) && Derived(b) ==> r.amountPesos == a.amountPesos + b.amountPesos
  {
    MoneyOf(a.amount + b.amount)
  }

  /** JavaScript `x ? Number(x) : 0` on a numeric query column: a missing
      value (`null`) and zero both become 0, anything else passes through. */
  function OrZero(x: Option<real>): (r: real)
    ensures x.None? ==> r == 0.0
    ensures x.Some? ==> r == x.value
  {
    if x.Some? && x.value != 0.0 then x.value else 0.0
  }

  /** JavaScript `x || 0` on a count column. */
  function CountOrZero(x: Option<nat>): (r: nat)
    ensures x.None? ==> r == 0
    ensures x.Some? ==> r == x.value
  {
    if x.Some? && x.value != 0 then x.value else 0
  }

  /** The three-way outcome of a comparison. */
  datatype Status = Increased | Decreased | NoChange

  /** The label the services emit for a status. */
  function StatusLabel(s: Status): (text: string)
    ensures text in {"Increased", "Decreased", "No Change"}
  {
    match s
    case Increased => "Increased"
    case Decreased => "Decreased"
    case NoChange => "No Change"
  }

  /** The status taken from the sign of a percent change. */
  function StatusOf(pct: real): (s: Status)
    ensures s == Increased <==> pct > 0.0
    ensures s == Decreased <==> pct < 0.0
    ensures s == NoChange <==> pct == 0.0
  {
    if pct > 0.0 then Increased else if pct < 0.0 then Decreased else NoChange
  }

  /** Percent change from `base` to `comparand`, with the zero-division
      policy of every service: a base that is not positive gives 0. */
  function PctChange(base: real, comparand: real): (pct: real)
    ensures base <= 0.0 ==> pct == 0.0
    ensures base > 0.0 ==> comparand == base + pct * base / 100.0
    ensures pct > 0.0 <==> base > 0.0 && comparand > base
    ensures pct < 0.0 <==> base > 0.0 && comparand < base
  {
    if base > 0.0 then (comparand - base) / base * 100.0 else 0.0
  }

  /** Share of `part` in `total` as a percentage, 0 when the total is not positive. */
  function ShareOf(part: real, total: real): (pct: real)
    ensures total <= 0.0 ==> pct == 0.0
    ensures total > 0.0 ==> pct * total == part * 100.0
    ensures total > 0.0 && 0.0 <= part <= total ==> 0.0 <= pct <= 100.0
  {
    if total > 0.0 then
      assert part / total * total == part;
      part / total * 100.0
    else 0.0
  }

  /** A comparison of a base amount with a comparand amount. */
  datatype Comparison = Comparison(difference: Money, percentChange: real, status: Status)

  /** Difference, percent change and status of `comparand` against `base`. */
  function Compare(base: real, comparand: real): (c: Comparison)
    ensures Derived(c.difference) && c.difference.amount == comparand - base
    ensures c.percentChange == PctChange(base, comparand)
    ensures c.status == Increased <==> base > 0.0 && comparand > base
    ensures c.status == Decreased <==> base > 0.0 && comparand < base
    ensures c.status == NoChange <==> base <= 0.0 || comparand == base
  {
    var pct := PctChange(base, comparand);
    Comparison(MoneyOf(comparand - base), pct, StatusOf(pct))
  }

  /** Swapping the two sides negates the difference; when both sides are
      positive the status flips, and equal sides give no change both ways. */
  lemma CompareSwap(a: real, b: real)
    ensures Compare(a, b).difference.amount == -Compare(b, a).difference.amount
    ensures a > 0.0 && b > 0.0 && Compare(a, b).status == Increased ==> Compare(b, a).status == Decreased
    ensures a > 0.0 && b > 0.0 && Compare(a, b).status == Decreased ==> Compare(b, a).status == Increased
    ensures a == b ==> Compare(a, b).status == NoChange && Compare(b, a).status == NoChange
  {
  }

  /** A zero base is not comparable, whatever the comparand: 0 and no
      change one way, while the other way is a full decrease. */
  lemma ZeroBaseIsNotComparable()
    ensures Compare(0.0, 500.0).percentChange == 0.0
    ensures Compare(0.0, 500.0).status == NoChange
    ensures Compare(500.0, 0.0).percentChange == -100.0
    ensures Compare(500.0, 0.0).status == Decreased
  {
  }

  /** `Number(x.toFixed(2))` on an exact value: the nearest multiple of
      0.01, with ties rounded away from zero. */
  function Round2(x: real): (r: real)
    ensures (r * 100.0).Floor as real == r * 100.0
    ensures -1.0 / 200.0 <= r - x <= 1.0 / 200.0
    ensures x >= 0.0 ==> -1.0 / 200.0 < r - x
    ensures x < 0.0 ==> r - x < 1.0 / 200.0
    ensures x >= 0.0 ==> r >= 0.0
    ensures x <= 0.0 ==> r <= 0.0
  {
    if x >= 0.0 then
      HalfUp(x);
      ((x * 100.0 + 0.5).Floor as real) / 100.0
    else
      HalfUp(-x);
      -(((-x) * 100.0 + 0.5).Floor as real) / 100.0
  }

  /** Rounding a non-negative value half up to hundredths lands on a
      multiple of 0.01 less than 0.005 below it and at most 0.005 above. */
  lemma HalfUp(y: real)
    requires y >= 0.0
    ensures var f := (y * 100.0 + 0.5).Floor;
            && f >= 0
            && ((f as real / 100.0) * 100.0).Floor == f
            && ((-(f as real) / 100.0) * 100.0).Floor == -f
            && -1.0 / 200.0 < f as real / 100.0 - y <= 1.0 / 200.0
  {
    var f := (y * 100.0 + 0.5).Floor;
    assert (f as real / 100.0) * 100.0 == f as real;
    assert (-(f as real) / 100.0) * 100.0 == (-f) as real;
  }

  /** A multiple of 0.01 within 0.005 of `x`, on the far side of a tie,
      is `Round2(x)`: the rounding is determined by its contract. */
  lemma Round2Unique(x: real, m: real)
    requires (m * 100.0).Floor as real == m * 100.0
    requires -1.0 / 200.0 <= m - x <= 1.0 / 200.0
    requires x >= 0.0 ==> -1.0 / 200.0 < m - x
    requires x < 0.0 ==> m - x < 1.0 / 200.0
    ensures m == Round2(x)
  {
    var r := Round2(x);
    var a := (m * 100.0).Floor;
    var b := (r * 100.0).Floor;
    assert -1.0 < (a - b) as real < 1.0;
    assert a == b;
  }

  /** The emitted, rounded percent can be 0 while the status, taken from
      the unrounded percent, reports an increase. */
  lemma StatusPrecedesRounding()
    ensures StatusOf(PctChange(100000.0, 100001.0)) == Increased
    ensures Round2(PctChange(100000.0, 100001.0)) == 0.0
  {
    assert PctChange(100000.0, 100001.0) == 0.001;
    assert (0.001 * 100.0 + 0.5).Floor == 0;
  }

  /** The shares of the parts of a total that is their sum add up to 100. */
  lemma {:induction false} SharesSumTo100(parts: seq<real>, shares: seq<real>)
    requires Sum(parts) > 0.0
    requires |shares| == |parts|
    requires forall i :: 0 <= i < |parts| ==> shares[i] == ShareOf(parts[i], Sum(parts))
    ensures Sum(shares) == 100.0
  {
    var t := Sum(parts);
    SumScale(parts, shares, 100.0 / t);
  }

  /** Every share of a total that is not positive is 0. */
  lemma {:induction false} SharesOfNonPositiveTotal(parts: seq<real>, total: real, shares: seq<real>)
    requires total <= 0.0
    requires |shares| == |parts|
    requires forall i :: 0 <= i < |parts| ==> shares[i] == ShareOf(parts[i], total)
    ensures Sum(shares) == 0.0
    decreases |parts|
  {
    if |parts| > 0 {
      var n := |parts| - 1;
      SharesOfNonPositiveTotal(parts[..n], total, shares[..n]);
    }
  }
}
