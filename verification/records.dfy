/** The mapped budget-records page: each wide join row becomes a nested
    record whose optional parts follow the join's optional matches, and the
    page metadata is derived from the record count. */
module Records {
  import opened Wrappers
  import opened Money

  /** The code and description of a joined node (a province's or city's
      code is its PSGC code, a funding source's or sub-object's its UACS code). */
  datatype Ref = Ref(code: string, description: string)

  /** The budget record's own properties. */
  datatype RecordProps = RecordProps(id: string, fiscalYear: string, budgetType: string,
                                     amount: real, description: Option<string>)

  /** One row of the join: the record, its organization and department are
      always matched, everything else may be missing. */
  datatype JoinRow = JoinRow(
    br: RecordProps, orgUacsCode: string, orgDescription: string, department: Ref,
    agency: Option<Ref>, operatingUnit: Option<Ref>,
    region: Option<Ref>, province: Option<Ref>, city: Option<Ref>,
    fundingSource: Option<Ref>, fundCluster: Option<Ref>, financingSource: Option<Ref>,
    subObject: Option<Ref>, category: Option<Ref>)

  datatype Organization = Organization(uacsCode: string, description: string, department: Ref,
                                       agency: Option<Ref>, operatingUnit: Option<Ref>)

  datatype Location = Location(region: Ref, province: Option<Ref>, city: Option<Ref>)

  datatype Funding = Funding(source: Ref, fundCluster: Option<Ref>, financingSource: Option<Ref>)

  datatype Classification = Classification(subObject: Ref, category: Option<Ref>)

  datatype MappedRecord = MappedRecord(
    id: string, fiscalYear: string, budgetType: string, amount: Money, description: string,
    organization: Organization, location: Option<Location>,
    fundingSource: Option<Funding>, expenseClassification: Option<Classification>)

  /** `x ? { ...child } : null`: a child is kept only inside a present parent. */
  function Inside<P, C>(parent: Option<P>, child: Option<C>): (c: Option<C>)
    ensures parent.None? ==> c.None?
    ensures parent.Some? ==> c == child
  {
    if parent.Some? then child else None
  }

  /** One join row as a nested record. */
  function MapRecord(row: JoinRow): (m: MappedRecord)
    ensures m.id == row.br.id && m.fiscalYear == row.br.fiscalYear && m.budgetType == row.br.budgetType
    ensures Derived(m.amount) && m.amount.amount == row.br.amount
    ensures row.br.description.None? ==> m.description == ""
    ensures row.br.description.Some? ==> m.description == row.br.description.value
    ensures m.organization == Organization(row.orgUacsCode, row.orgDescription, row.department, row.agency, row.operatingUnit)
    ensures m.location.Some? <==> row.region.Some?
    ensures m.location.Some? ==> m.location.value == Location(row.region.value, row.province, row.city)
    ensures m.fundingSource.Some? <==> row.fundingSource.Some?
    ensures m.fundingSource.Some? ==>
              m.fundingSource.value == Funding(row.fundingSource.value, row.fundCluster, row.financingSource)
    ensures m.expenseClassification.Some? <==> row.subObject.Some?
    ensures m.expenseClassification.Some? ==>
              m.expenseClassification.value == Classification(row.subObject.value, row.category)
  {
    MappedRecord(
      row.br.id, row.br.fiscalYear, row.br.budgetType, MoneyOf(row.br.amount), row.br.description.GetOr(""),
      Organization(row.orgUacsCode, row.orgDescription, row.department, row.agency, row.operatingUnit),
      match row.region
        case None => None
        case Some(r) => Some(Location(r, row.province, row.city)),
      match row.fundingSource
        case None => None
        case Some(f) => Some(Funding(f, row.fundCluster, row.financingSource)),
      match row.subObject
        case None => None
        case Some(s) => Some(Classification(s, row.category)))
  }

  /** The join row with the parts the mapping cannot show cleared: a
      province or city without a region, a fund cluster or financing source
      without a funding source, a category without a sub-object, and a
      missing description told apart from an empty one. */
  function Masked(row: JoinRow): (r: JoinRow)
    ensures r.region == row.region && r.fundingSource == row.fundingSource && r.subObject == row.subObject
    ensures r.province == Inside(row.region, row.province) && r.city == Inside(row.region, row.city)
    ensures r.fundCluster == Inside(row.fundingSource, row.fundCluster)
    ensures r.financingSource == Inside(row.fundingSource, row.financingSource)
    ensures r.category == Inside(row.subObject, row.category)
  {
    row.(br := row.br.(description := Some(row.br.description.GetOr(""))),
         province := Inside(row.region, row.province), city := Inside(row.region, row.city),
         fundCluster := Inside(row.fundingSource, row.fundCluster),
         financingSource := Inside(row.fundingSource, row.financingSource),
         category := Inside(row.subObject, row.category))
  }

  /** Reads a nested record back into a join row. */
  function Unmap(m: MappedRecord): (row: JoinRow)
    ensures row.br.description == Some(m.description)
  {
    JoinRow(
      RecordProps(m.id, m.fiscalYear, m.budgetType, m.amount.amount, Some(m.description)),
      m.organization.uacsCode, m.organization.description, m.organization.department,
      m.organization.agency, m.organization.operatingUnit,
      if m.location.Some? then Some(m.location.value.region) else None,
      if m.location.Some? then m.location.value.province else None,
      if m.location.Some? then m.location.value.city else None,
      if m.fundingSource.Some? then Some(m.fundingSource.value.source) else None,
      if m.fundingSource.Some? then m.fundingSource.value.fundCluster else None,
      if m.fundingSource.Some? then m.fundingSource.value.financingSource else None,
      if m.expenseClassification.Some? then Some(m.expenseClassification.value.subObject) else None,
      if m.expenseClassification.Some? then m.expenseClassification.value.category else None)
  }

  /** The mapping loses exactly the masked parts: reading a record back
      gives the masked row, and two rows map alike iff their masks agree. */
  lemma MapRecordRoundTrip(row: JoinRow, other: JoinRow)
    ensures Unmap(MapRecord(row)) == Masked(row)
    ensures MapRecord(Masked(row)) == MapRecord(row)
    ensures MapRecord(row) == MapRecord(other) <==> Masked(row) == Masked(other)
  {
    assert Unmap(MapRecord(other)) == Masked(other);
  }

  // ---------------------------------------------------------------------
  // Pagination

  /** The number of records skipped before page `page`. */
  function Offset(page: int, limit: int): (n: int)
    ensures page >= 1 && limit >= 0 ==> n >= 0
    ensures n + limit == page * limit
  {
    (page - 1) * limit
  }

  /** Consecutive pages tile the records: the first page starts at 0 and
      each page starts where the previous one ends. */
  lemma PagesTile(page: int, limit: int)
    ensures Offset(1, limit) == 0
    ensures Offset(page + 1, limit) == Offset(page, limit) + limit
  {
  }

  /** `Math.ceil(total / limit)`: a number of pages, or the non-finite
      results of dividing by a zero limit. */
  datatype PageCount = Pages(n: int) | Infinity | NotANumber

  function TotalPages(total: nat, limit: int): (r: PageCount)
    ensures limit > 0 ==> r.Pages? && (r.n - 1) * limit < total <= r.n * limit
    ensures limit < 0 ==> r.Pages? && r.n * limit <= total < (r.n - 1) * limit
    ensures limit == 0 ==> (r == Infinity <==> total > 0) && (r == NotANumber <==> total == 0)
  {
    if limit > 0 then Pages((total + limit - 1) / limit)
    else if limit < 0 then Pages(-(total / -limit))
    else if total > 0 then Infinity
    else NotANumber
  }

  datatype Meta = Meta(total: nat, page: int, limit: int, totalPages: PageCount)

  datatype RecordsPage = RecordsPage(data: seq<MappedRecord>, meta: Meta)

  /** One record per returned row, in order; a missing or zero count gives
      a total of 0. */
  function RecordsMapped(rows: seq<JoinRow>, count: Option<nat>, page: int, limit: int): (p: RecordsPage)
    ensures |p.data| == |rows|
    ensures forall i :: 0 <= i < |rows| ==> p.data[i] == MapRecord(rows[i])
    ensures p.meta.total == CountOrZero(count)
    ensures p.meta.page == page && p.meta.limit == limit
    ensures p.meta.totalPages == TotalPages(CountOrZero(count), limit)
  {
    var total := CountOrZero(count);
    RecordsPage(seq(|rows|, i requires 0 <= i < |rows| => MapRecord(rows[i])),
                Meta(total, page, limit, TotalPages(total, limit)))
  }
}
