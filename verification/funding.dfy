/** The fund-cluster / funding-source tree with its counts, and the funding
    source listing and lookup with their optional budget totals. */
module Funding {
  import opened Wrappers
  import opened Seqs
  import opened Money
  import opened Shares

  // ---------------------------------------------------------------------
  // getFundingSourceHierarchy

  /** A field of a collected map as the driver hands it over: a key that is
      absent, a key whose value is null, or a value. */
  datatype Field<+T> = Undefined | Null | Value(value: T)

  /** A code and description pair collected from an optional match. */
  datatype Pair = Pair(code: Field<string>, description: Field<string>)

  /** One collected funding-source entry of a cluster. When the cluster has
      no funding source, the optional match collects a single entry whose
      every field is null. */
  datatype FundingEntry = FundingEntry(
    uacsCode: Field<string>, description: Field<string>, fundClusterCode: Field<string>,
    financingSourceCode: Field<string>, authorizationCode: Field<string>,
    fundCategoryCode: Field<string>,
    financingSource: Pair, authorization: Pair, fundCategory: Pair)

  /** One row of the cluster query, in cluster-code order. */
  datatype ClusterRow = ClusterRow(code: string, description: string, fundingSources: seq<FundingEntry>)

  datatype Cluster = Cluster(code: string, description: string, fundingSources: seq<FundingEntry>)

  datatype FundingMeta = FundingMeta(totalFundClusters: nat, totalFundingSources: nat,
                                     totalFinancingSources: nat, totalAuthorizations: nat)

  datatype FundingHierarchy = FundingHierarchy(data: seq<Cluster>, meta: FundingMeta)

  /** The test as written, `uacsCode !== undefined`: a null code passes. */
  predicate DefinedCode(e: FundingEntry)
  {
    !e.uacsCode.Undefined?
  }

  /** The test the type guard promises: the entry has a UACS code. */
  predicate HasCode(e: FundingEntry)
  {
    e.uacsCode.Value?
  }

  /** The entries that pass `keep`: the `k`-th kept entry is the `k`-th
      entry that passes, so an entry is kept iff it is collected and
      passes, and the collected order is kept. */
  function Kept(es: seq<FundingEntry>, keep: FundingEntry -> bool): (ks: seq<FundingEntry>)
    ensures |ks| == |Passing(es, keep)| <= |es|
    ensures forall k :: 0 <= k < |ks| ==> ks[k] == es[Passing(es, keep)[k]]
    ensures forall e :: e in ks <==> e in es && keep(e)
  {
    Filter(es, keep)
  }

  function SourceCount(c: Cluster): nat
  {
    |c.fundingSources|
  }

  /** The financing-source codes of all entries, cluster by cluster. */
  function FinancingCodes(cs: seq<Cluster>): (codes: seq<Field<string>>)
    ensures |codes| == Total(cs, SourceCount)
  {
    if |cs| == 0 then []
    else
      var last := cs[|cs| - 1].fundingSources;
      FinancingCodes(cs[..|cs| - 1]) + seq(|last|, j requires 0 <= j < |last| => last[j].financingSourceCode)
  }

  /** Every collected code is the code of an entry of some cluster. */
  lemma {:induction false} FinancingCodesFrom(cs: seq<Cluster>, c: Field<string>)
    requires c in FinancingCodes(cs)
    ensures exists i, j :: 0 <= i < |cs| && 0 <= j < |cs[i].fundingSources| &&
              cs[i].fundingSources[j].financingSourceCode == c
    decreases |cs|
  {
    var n := |cs| - 1;
    var last := cs[n].fundingSources;
    var tail := seq(|last|, k requires 0 <= k < |last| => last[k].financingSourceCode);
    assert FinancingCodes(cs) == FinancingCodes(cs[..n]) + tail;
    if c in FinancingCodes(cs[..n]) {
      FinancingCodesFrom(cs[..n], c);
      var i, j :| 0 <= i < n && 0 <= j < |cs[..n][i].fundingSources| &&
                  cs[..n][i].fundingSources[j].financingSourceCode == c;
      assert cs[i].fundingSources[j].financingSourceCode == c;
    } else {
      var j :| 0 <= j < |tail| && tail[j] == c;
      assert cs[n].fundingSources[j].financingSourceCode == c;
    }
  }

  /** Every code of an entry of some cluster is among the collected codes. */
  lemma {:induction false} FinancingCodesCover(cs: seq<Cluster>, i: nat, j: nat)
    requires i < |cs| && j < |cs[i].fundingSources|
    ensures cs[i].fundingSources[j].financingSourceCode in FinancingCodes(cs)
    decreases |cs|
  {
    var n := |cs| - 1;
    var last := cs[n].fundingSources;
    var tail := seq(|last|, k requires 0 <= k < |last| => last[k].financingSourceCode);
    if i < n {
      FinancingCodesCover(cs[..n], i, j);
      assert cs[..n][i] == cs[i];
    } else {
      assert tail[j] == cs[i].fundingSources[j].financingSourceCode;
    }
    assert FinancingCodes(cs) == FinancingCodes(cs[..n]) + tail;
  }

  /** The collected codes, whose distinct values the financing-source
      counter counts, are exactly the codes of the clusters' entries. */
  lemma FinancingCodesExact(cs: seq<Cluster>)
    ensures forall i, j :: 0 <= i < |cs| && 0 <= j < |cs[i].fundingSources| ==>
              cs[i].fundingSources[j].financingSourceCode in FinancingCodes(cs)
    ensures forall c :: c in FinancingCodes(cs) ==>
              exists i, j :: 0 <= i < |cs| && 0 <= j < |cs[i].fundingSources| &&
                cs[i].fundingSources[j].financingSourceCode == c
  {
    forall i, j | 0 <= i < |cs| && 0 <= j < |cs[i].fundingSources|
      ensures cs[i].fundingSources[j].financingSourceCode in FinancingCodes(cs) {
      FinancingCodesCover(cs, i, j);
    }
    forall c | c in FinancingCodes(cs)
      ensures exists i, j :: 0 <= i < |cs| && 0 <= j < |cs[i].fundingSources| &&
                cs[i].fundingSources[j].financingSourceCode == c {
      FinancingCodesFrom(cs, c);
    }
  }

  /** The clusters in row order with the entries that pass `keep`, the
      number of clusters and of kept entries, and the number of distinct
      financing-source codes among the kept entries; authorizations are
      never counted. */
  function HierarchyWith(rows: seq<ClusterRow>, keep: FundingEntry -> bool): (h: FundingHierarchy)
    ensures |h.data| == |rows| == h.meta.totalFundClusters
    ensures forall i :: 0 <= i < |rows| ==>
              h.data[i] == Cluster(rows[i].code, rows[i].description, Kept(rows[i].fundingSources, keep))
    ensures h.meta.totalFundingSources == Total(h.data, SourceCount)
    ensures h.meta.totalFinancingSources == |set c | c in FinancingCodes(h.data)|
    ensures h.meta.totalFinancingSources <= h.meta.totalFundingSources
    ensures forall i, j :: 0 <= i < |h.data| && 0 <= j < |h.data[i].fundingSources| ==>
              h.data[i].fundingSources[j].financingSourceCode in FinancingCodes(h.data)
    ensures h.meta.totalAuthorizations == 0
  {
    var data := seq(|rows|, i requires 0 <= i < |rows| =>
                    Cluster(rows[i].code, rows[i].description, Kept(rows[i].fundingSources, keep)));
    DistinctBound(FinancingCodes(data));
    forall i, j | 0 <= i < |data| && 0 <= j < |data[i].fundingSources|
      ensures data[i].fundingSources[j].financingSourceCode in FinancingCodes(data) {
      FinancingCodesCover(data, i, j);
    }
    FundingHierarchy(data, FundingMeta(|data|, Total(data, SourceCount), |set c | c in FinancingCodes(data)|, 0))
  }

  /** The hierarchy as the code builds it: only entries whose code key is
      absent are dropped. */
  function HierarchyAsWritten(rows: seq<ClusterRow>): (h: FundingHierarchy)
    ensures h == HierarchyWith(rows, DefinedCode)
    ensures forall i, e :: 0 <= i < |rows| && e in rows[i].fundingSources && e.uacsCode.Null? ==>
              e in h.data[i].fundingSources
  {
    HierarchyWith(rows, DefinedCode)
  }

  /** The hierarchy with entries that carry no UACS code dropped, so that
      a cluster without funding sources lists none. */
  function Hierarchy(rows: seq<ClusterRow>): (h: FundingHierarchy)
    ensures h == HierarchyWith(rows, HasCode)
    ensures forall i, e :: 0 <= i < |rows| && e in h.data[i].fundingSources ==> e.uacsCode.Value?
  {
    HierarchyWith(rows, HasCode)
  }

  /** The entry an optional match collects for a cluster with no funding
      source. */
  const NoSource := FundingEntry(Null, Null, Null, Null, Null, Null,
                                 Pair(Null, Null), Pair(Null, Null), Pair(Null, Null))

  /** A cluster without funding sources: as written it reports one funding
      source and one financing source; with the corrected test it reports
      none. */
  lemma EmptyClusterCounted()
    ensures var rows := [ClusterRow("01", "Regular Agency Fund", [NoSource])];
            && HierarchyAsWritten(rows).meta.totalFundingSources == 1
            && HierarchyAsWritten(rows).meta.totalFinancingSources == 1
            && Hierarchy(rows).meta.totalFundingSources == 0
            && Hierarchy(rows).meta.totalFinancingSources == 0
  {
    NoSourceKeptAsWritten();
    NoSourceDropped();
  }

  lemma NoSourceKeptAsWritten()
    ensures var w := HierarchyAsWritten([ClusterRow("01", "Regular Agency Fund", [NoSource])]);
            && w.meta.totalFundingSources == 1 && w.meta.totalFinancingSources == 1
  {
    var w := HierarchyAsWritten([ClusterRow("01", "Regular Agency Fund", [NoSource])]);
    NoSourceKeptEntry();
    OneNullCluster(w.data);
  }

  lemma NoSourceKeptEntry()
    ensures HierarchyAsWritten([ClusterRow("01", "Regular Agency Fund", [NoSource])]).data
            == [Cluster("01", "Regular Agency Fund", [NoSource])]
  {
    assert Kept([NoSource], DefinedCode) == [NoSource] by {
      assert [NoSource][..0] == [];
    }
  }

  /** One cluster whose one entry is all null has one entry and one code. */
  lemma OneNullCluster(cs: seq<Cluster>)
    requires cs == [Cluster("01", "Regular Agency Fund", [NoSource])]
    ensures Total(cs, SourceCount) == 1
    ensures |set c | c in FinancingCodes(cs)| == 1
  {
    assert cs[..0] == [];
    assert FinancingCodes(cs) == [Null];
    var one: seq<Field<string>> := [Null];
    assert (set c | c in one) == {Null};
  }

  lemma NoSourceDropped()
    ensures var h := Hierarchy([ClusterRow("01", "Regular Agency Fund", [NoSource])]);
            && h.meta.totalFundingSources == 0 && h.meta.totalFinancingSources == 0
  {
    var h := Hierarchy([ClusterRow("01", "Regular Agency Fund", [NoSource])]);
    assert Kept([NoSource], HasCode) == [];
    assert h.data == [Cluster("01", "Regular Agency Fund", [])];
    assert h.data[..0] == [];
    assert FinancingCodes(h.data) == [];
  }

  /** The number of entries of one cluster that carry a UACS code,
      counted entry by entry. */
  function CodedCount(es: seq<FundingEntry>): nat
  {
    if |es| == 0 then 0 else CodedCount(es[..|es| - 1]) + (if es[|es| - 1].uacsCode.Value? then 1 else 0)
  }

  /** The number of entries with a UACS code over the rows. */
  function CodedEntries(rows: seq<ClusterRow>): nat
  {
    if |rows| == 0 then 0 else CodedEntries(rows[..|rows| - 1]) + CodedCount(rows[|rows| - 1].fundingSources)
  }

  /** The corrected test keeps exactly the entries that carry a code. */
  lemma {:induction false} KeptCoded(es: seq<FundingEntry>)
    ensures |Kept(es, HasCode)| == CodedCount(es)
    decreases |es|
  {
    if |es| > 0 {
      var n := |es| - 1;
      KeptCoded(es[..n]);
      assert Kept(es, HasCode) == Kept(es[..n], HasCode) + (if HasCode(es[n]) then [es[n]] else []);
    }
  }

  /** With the corrected test, the funding-source count is the number of
      entries that carry a UACS code. */
  lemma {:induction false} CorrectedCountsCodedEntries(rows: seq<ClusterRow>)
    ensures Hierarchy(rows).meta.totalFundingSources == CodedEntries(rows)
    decreases |rows|
  {
    if |rows| > 0 {
      var n := |rows| - 1;
      CorrectedCountsCodedEntries(rows[..n]);
      KeptCoded(rows[n].fundingSources);
      assert Hierarchy(rows).data[..n] == Hierarchy(rows[..n]).data;
    }
  }

  // ---------------------------------------------------------------------
  // getAllFundingSources, getFundingSourceByCode

  /** A funding-source row; `totalBudget` is only read in the budget variant. */
  datatype SourceRow = SourceRow(uacsCode: string, description: string, clusterCode: string,
                                 clusterDescription: string, totalBudget: Option<real>)

  datatype FundingSource = FundingSource(uacsCode: string, description: string, clusterCode: string,
                                         clusterDescription: string, totalBudget: Option<Money>)

  function FundingSourceOf(row: SourceRow, withBudget: bool): (s: FundingSource)
    ensures s.uacsCode == row.uacsCode && s.description == row.description
    ensures s.clusterCode == row.clusterCode && s.clusterDescription == row.clusterDescription
    ensures s.totalBudget.Some? <==> withBudget
    ensures withBudget ==> Derived(s.totalBudget.value) && s.totalBudget.value.amount == OrZero(row.totalBudget)
  {
    FundingSource(row.uacsCode, row.description, row.clusterCode, row.clusterDescription,
                  if withBudget then Some(MoneyOf(OrZero(row.totalBudget))) else None)
  }

  /** One funding source per row, in order; totals only in the budget variant. */
  function AllFundingSources(withBudget: bool, year: Option<string>, budgetType: Option<string>,
                             rows: seq<SourceRow>): (ss: seq<FundingSource>)
    ensures |ss| == |rows|
    ensures forall i :: 0 <= i < |rows| ==>
              ss[i] == FundingSourceOf(rows[i], WantsBudget(withBudget, year, budgetType))
  {
    seq(|rows|, i requires 0 <= i < |rows| => FundingSourceOf(rows[i], WantsBudget(withBudget, year, budgetType)))
  }

  /** No row gives no funding source. */
  function FundingSourceByCode(withBudget: bool, year: Option<string>, budgetType: Option<string>,
                               row: Option<SourceRow>): (s: Option<FundingSource>)
    ensures s.Some? <==> row.Some?
    ensures s.Some? ==> s.value == FundingSourceOf(row.value, WantsBudget(withBudget, year, budgetType))
  {
    match row
    case None => None
    case Some(r) => Some(FundingSourceOf(r, WantsBudget(withBudget, year, budgetType)))
  }
}
