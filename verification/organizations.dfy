/** Organization search and lookup, and the department / agency /
    operating-unit hierarchy in which operating units are grouped under the
    agency named by characters 2 to 4 of their UACS code. */
module Organizations {
  import opened Wrappers
  import opened Seqs
  import opened Money
  import opened Buckets
  import opened Shares

  // ---------------------------------------------------------------------
  // searchOrganizations, getOrganizationByCode

  datatype OrgInfo = OrgInfo(uacsCode: string, description: string, departmentCode: string,
                             departmentDescription: string, agencyCode: string, agencyDescription: string)

  /** A result row; `totalBudget` is only read in the budget variant. */
  datatype OrgRow = OrgRow(info: OrgInfo, totalBudget: Option<real>)

  datatype Organization = Organization(info: OrgInfo, totalBudget: Option<Money>)

  function OrganizationOf(row: OrgRow, withBudget: bool): (o: Organization)
    ensures o.info == row.info
    ensures o.totalBudget.Some? <==> withBudget
    ensures withBudget ==> Derived(o.totalBudget.value) && o.totalBudget.value.amount == OrZero(row.totalBudget)
  {
    Organization(row.info, if withBudget then Some(MoneyOf(OrZero(row.totalBudget))) else None)
  }

  /** One organization per returned row, in order, with a total budget only
      in the budget variant. */
  function SearchOrganizations(withBudget: bool, year: Option<string>, budgetType: Option<string>,
                               rows: seq<OrgRow>): (os: seq<Organization>)
    ensures |os| == |rows|
    ensures forall i :: 0 <= i < |rows| ==>
              os[i] == OrganizationOf(rows[i], WantsBudget(withBudget, year, budgetType))
  {
    seq(|rows|, i requires 0 <= i < |rows| => OrganizationOf(rows[i], WantsBudget(withBudget, year, budgetType)))
  }

  /** No row gives no organization. */
  function OrganizationByCode(withBudget: bool, year: Option<string>, budgetType: Option<string>,
                              row: Option<OrgRow>): (o: Option<Organization>)
    ensures o.Some? <==> row.Some?
    ensures o.Some? ==> o.value == OrganizationOf(row.value, WantsBudget(withBudget, year, budgetType))
  {
    match row
    case None => None
    case Some(r) => Some(OrganizationOf(r, WantsBudget(withBudget, year, budgetType)))
  }

  // ---------------------------------------------------------------------
  // getOrganizationHierarchy

  /** An agency as collected by the query; an agency-less department
      yields one all-null entry. */
  datatype AgencyRow = AgencyRow(code: Option<string>, uacsCode: Option<string>,
                                 description: Option<string>, departmentCode: Option<string>)

  datatype OuRow = OuRow(code: Option<string>, uacsCode: Option<string>, description: Option<string>,
                         classCode: Option<string>, lowerOuCode: Option<string>)

  /** One department row with its collected agencies and operating units. */
  datatype DeptRow = DeptRow(code: string, description: string, abbreviation: Option<string>,
                             agencies: seq<AgencyRow>, operatingUnits: seq<OuRow>)

  datatype OperatingUnit = OperatingUnit(code: string, uacsCode: string, description: Option<string>,
                                         classCode: Option<string>, lowerOuCode: Option<string>)

  datatype Agency = Agency(code: string, uacsCode: string, description: Option<string>,
                           departmentCode: Option<string>, operatingUnits: seq<OperatingUnit>)

  datatype DepartmentNode = DepartmentNode(code: string, description: string, abbreviation: Option<string>,
                                           agencies: seq<Agency>)

  datatype Hierarchy = Hierarchy(data: seq<DepartmentNode>, totalDepartments: nat,
                                 totalAgencies: nat, totalOperatingUnits: nat)

  /** Cypher `substring(uacs, 2, 3)`: up to three characters from index 2. */
  function AgencyCodeOf(uacs: string): (c: string)
    ensures |uacs| >= 5 ==> c == uacs[2..5]
    ensures |uacs| <= 2 ==> c == ""
    ensures 2 < |uacs| < 5 ==> c == uacs[2..]
  {
    if |uacs| <= 2 then "" else if |uacs| >= 5 then uacs[2..5] else uacs[2..]
  }

  function OuKey(o: OperatingUnit): string
  {
    AgencyCodeOf(o.uacsCode)
  }

  /** `ou.code && ou.uacsCode`: the test an operating unit must pass to be listed. */
  predicate Listed(o: OuRow)
  {
    Truthy(o.code) && Truthy(o.uacsCode)
  }

  function UnitOf(o: OuRow): (u: OperatingUnit)
    ensures u.code == o.code.GetOr("") && u.uacsCode == o.uacsCode.GetOr("")
    ensures u.description == o.description && u.classCode == o.classCode && u.lowerOuCode == o.lowerOuCode
  {
    OperatingUnit(o.code.GetOr(""), o.uacsCode.GetOr(""), o.description, o.classCode, o.lowerOuCode)
  }

  /** `ou.code && ou.uacsCode` then the unit entry: the `k`-th listed
      unit is the unit of the `k`-th row that passes the test, so the
      listed units are exactly those of the passing rows, in row order. */
  function KeptUnits(rows: seq<OuRow>): (os: seq<OperatingUnit>)
    ensures |os| == |Passing(rows, Listed)| <= |rows|
    ensures forall k :: 0 <= k < |os| ==> os[k] == UnitOf(rows[Passing(rows, Listed)[k]])
    ensures forall k :: 0 <= k < |os| ==> os[k].code != "" && os[k].uacsCode != ""
    ensures forall i :: 0 <= i < |rows| && Listed(rows[i]) ==> UnitOf(rows[i]) in os
  {
    forall i | 0 <= i < |rows| && Listed(rows[i]) ensures UnitOf(rows[i]) in FilterMap(rows, Listed, UnitOf) {
      FilterMapComplete(rows, Listed, UnitOf, i);
    }
    FilterMap(rows, Listed, UnitOf)
  }

  /** `a.code && a.uacsCode`: the test an agency must pass to be listed. */
  predicate AgencyListed(a: AgencyRow)
  {
    Truthy(a.code) && Truthy(a.uacsCode)
  }

  /** The agencies that pass `a.code && a.uacsCode`, before their operating
      units are attached: the `k`-th listed agency is that of the `k`-th
      passing row, so exactly the passing rows are listed, in row order. */
  function KeptAgencies(rows: seq<AgencyRow>): (agencies: seq<Agency>)
    ensures |agencies| == |Passing(rows, AgencyListed)| <= |rows|
    ensures forall k :: 0 <= k < |agencies| ==> agencies[k] == AgencyOf(rows[Passing(rows, AgencyListed)[k]])
    ensures forall k :: 0 <= k < |agencies| ==>
              agencies[k].code != "" && agencies[k].uacsCode != "" && agencies[k].operatingUnits == []
    ensures forall i :: 0 <= i < |rows| && AgencyListed(rows[i]) ==> AgencyOf(rows[i]) in agencies
  {
    forall i | 0 <= i < |rows| && AgencyListed(rows[i]) ensures AgencyOf(rows[i]) in FilterMap(rows, AgencyListed, AgencyOf) {
      FilterMapComplete(rows, AgencyListed, AgencyOf, i);
    }
    FilterMap(rows, AgencyListed, AgencyOf)
  }

  /** An agency entry, before its operating units are attached. */
  function AgencyOf(a: AgencyRow): (r: Agency)
    ensures r.code == a.code.GetOr("") && r.uacsCode == a.uacsCode.GetOr("")
    ensures r.description == a.description && r.departmentCode == a.departmentCode
    ensures r.operatingUnits == []
  {
    Agency(a.code.GetOr(""), a.uacsCode.GetOr(""), a.description, a.departmentCode, [])
  }

  /** A department node: the listed agencies in row order, each holding
      exactly the listed operating units whose agency code, derived from
      the UACS code, is its code, in row order; a unit whose derived code
      names no listed agency is under none. */
  function DepartmentOf(d: DeptRow): (n: DepartmentNode)
    ensures n.code == d.code && n.description == d.description && n.abbreviation == d.abbreviation
    ensures |n.agencies| == |KeptAgencies(d.agencies)|
    ensures forall i :: 0 <= i < |n.agencies| ==>
              n.agencies[i] == KeptAgencies(d.agencies)[i].(operatingUnits :=
                                 KeyFilter(KeptUnits(d.operatingUnits), OuKey, n.agencies[i].code))
    ensures forall i, j :: 0 <= i < |n.agencies| && 0 <= j < |n.agencies[i].operatingUnits| ==>
              OuKey(n.agencies[i].operatingUnits[j]) == n.agencies[i].code
  {
    var units := KeptUnits(d.operatingUnits);
    var byAgency := BucketBy(units, OuKey);
    LookupBuckets(units, OuKey);
    var kept := KeptAgencies(d.agencies);
    DepartmentNode(d.code, d.description, d.abbreviation,
                   seq(|kept|, i requires 0 <= i < |kept| =>
                     kept[i].(operatingUnits := Lookup(byAgency, kept[i].code))))
  }

  /** An operating unit whose derived agency code names no kept agency of
      its department appears under no agency. */
  lemma UnmatchedUnitsDropped(d: DeptRow, o: OperatingUnit)
    requires forall k :: 0 <= k < |KeptAgencies(d.agencies)| ==> KeptAgencies(d.agencies)[k].code != OuKey(o)
    ensures forall i :: 0 <= i < |DepartmentOf(d).agencies| ==> o !in DepartmentOf(d).agencies[i].operatingUnits
  {
    var n := DepartmentOf(d);
    forall i | 0 <= i < |n.agencies| ensures o !in n.agencies[i].operatingUnits {
      assert n.agencies[i].code == KeptAgencies(d.agencies)[i].code;
    }
  }

  function UnitCount(a: Agency): nat
  {
    |a.operatingUnits|
  }

  function AgencyCount(d: DepartmentNode): nat
  {
    |d.agencies|
  }

  /** The operating units listed under a department's agencies. */
  function DepartmentUnits(d: DepartmentNode): nat
  {
    Total(d.agencies, UnitCount)
  }

  /** The operating units of a department, counted one agency at a time. */
  method CountUnits(d: DepartmentNode) returns (n: nat)
    ensures n == DepartmentUnits(d)
  {
    n := 0;
    for j := 0 to |d.agencies|
      invariant n == Total(d.agencies[..j], UnitCount)
    {
      TotalAppend(d.agencies[..j], d.agencies[j], UnitCount);
      assert d.agencies[..j + 1] == d.agencies[..j] + [d.agencies[j]];
      n := n + |d.agencies[j].operatingUnits|;
    }
    assert d.agencies[..|d.agencies|] == d.agencies;
  }

  /** The agencies of the departments, counted one department at a time. */
  method CountAgencies(departments: seq<DepartmentNode>) returns (n: nat)
    ensures n == Total(departments, AgencyCount)
  {
    n := 0;
    for j := 0 to |departments|
      invariant n == Total(departments[..j], AgencyCount)
    {
      TotalAppend(departments[..j], departments[j], AgencyCount);
      assert departments[..j + 1] == departments[..j] + [departments[j]];
      n := n + |departments[j].agencies|;
    }
    assert departments[..|departments|] == departments;
  }

  /** The operating units of the departments, department by department. */
  method CountDepartmentUnits(departments: seq<DepartmentNode>) returns (n: nat)
    ensures n == Total(departments, DepartmentUnits)
  {
    n := 0;
    for j := 0 to |departments|
      invariant n == Total(departments[..j], DepartmentUnits)
    {
      var units := CountUnits(departments[j]);
      TotalAppend(departments[..j], departments[j], DepartmentUnits);
      assert departments[..j + 1] == departments[..j] + [departments[j]];
      n := n + units;
    }
    assert departments[..|departments|] == departments;
  }

  /** One department per row, in order; the counters are the number of
      agencies kept and of operating units attached to them. */
  method OrganizationHierarchy(rows: seq<DeptRow>) returns (h: Hierarchy)
    ensures |h.data| == |rows| && h.totalDepartments == |rows|
    ensures forall i :: 0 <= i < |rows| ==> h.data[i] == DepartmentOf(rows[i])
    ensures h.totalAgencies == Total(h.data, AgencyCount)
    ensures h.totalOperatingUnits == Total(h.data, DepartmentUnits)
  {
    var data := seq(|rows|, i requires 0 <= i < |rows| => DepartmentOf(rows[i]));
    var totalAgencies := CountAgencies(data);
    var totalUnits := CountDepartmentUnits(data);
    h := Hierarchy(data, |data|, totalAgencies, totalUnits);
  }
}
