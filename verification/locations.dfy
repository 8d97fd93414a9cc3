/** The region / province / city / barangay tree. Cities are linked to a
    province through the last two characters of the province's PSGC code,
    and barangays to a city through the first six characters of their own
    PSGC code; the running counters are kept while the tree is built. */
module Locations {
  import opened Wrappers
  import opened Seqs
  import opened Buckets

  /** Collected entries of a region; an optional match that finds nothing
      collects one entry whose every field is null. */
  datatype ProvinceRow = ProvinceRow(psgcCode: Option<string>, description: Option<string>, regionCode: Option<string>)

  datatype CityRow = CityRow(psgcCode: Option<string>, description: Option<string>, provinceCode: Option<string>)

  datatype BarangayRow = BarangayRow(psgcCode: Option<string>, description: Option<string>, status: Option<string>)

  /** One row of the region query, in region-code order. */
  datatype RegionRow = RegionRow(code: string, description: string, provinces: seq<ProvinceRow>,
                                 cities: seq<CityRow>, barangays: seq<BarangayRow>)

  datatype Barangay = Barangay(psgcCode: string, description: Option<string>, status: string)

  datatype City = City(psgcCode: string, description: Option<string>, provinceCode: Option<string>,
                       barangays: seq<Barangay>)

  datatype Province = Province(psgcCode: string, description: Option<string>, regionCode: Option<string>,
                               citiesMunicipalities: seq<City>)

  datatype RegionNode = RegionNode(code: string, description: string, provinces: seq<Province>)

  datatype LocationMeta = LocationMeta(totalRegions: nat, totalProvinces: nat,
                                       totalCitiesMunicipalities: nat, totalBarangays: nat)

  datatype LocationHierarchy = LocationHierarchy(data: seq<RegionNode>, meta: LocationMeta)

  /** Cypher `substring(psgc, 0, 6)`: the city a barangay code belongs to. */
  function CityKeyOf(psgc: string): (k: string)
    ensures k <= psgc
    ensures |psgc| >= 6 ==> |k| == 6
    ensures |psgc| < 6 ==> k == psgc
  {
    if |psgc| >= 6 then psgc[..6] else psgc
  }

  /** JavaScript `psgc.slice(-2)`: the province reference its cities carry. */
  function ProvinceKeyOf(psgc: string): (k: string)
    ensures |psgc| >= 2 ==> |k| == 2 && psgc == psgc[..|psgc| - 2] + k
    ensures |psgc| < 2 ==> k == psgc
  {
    if |psgc| >= 2 then psgc[|psgc| - 2..] else psgc
  }

  function BarangayKey(b: Barangay): string
  {
    CityKeyOf(b.psgcCode)
  }

  function CityKey(c: City): Option<string>
  {
    c.provinceCode
  }

  /** A barangay entry with a code; a missing or empty status becomes "". */
  function BarangayOf(b: BarangayRow): (r: Barangay)
    ensures r.psgcCode == b.psgcCode.GetOr("") && r.description == b.description
    ensures b.status.Some? ==> r.status == b.status.value
    ensures b.status.None? ==> r.status == ""
  {
    Barangay(b.psgcCode.GetOr(""), b.description, b.status.GetOr(""))
  }

  /** `barangay.psgcCode && barangay.cityCode === city`: the test a
      barangay row must pass to be listed under the city with code `city`. */
  function InCity(city: string): BarangayRow -> bool
  {
    (b: BarangayRow) => Truthy(b.psgcCode) && CityKeyOf(b.psgcCode.value) == city
  }

  /** The barangays of the city with code `city`: the `k`-th listed
      barangay is that of the `k`-th row, in row order, that has a
      non-empty code whose first six characters are `city`; so exactly
      those rows are listed, in row order, with the status defaulting to "". */
  function BarangaysOf(bs: seq<BarangayRow>, city: string): (out: seq<Barangay>)
    ensures |out| == |Passing(bs, InCity(city))| <= |bs|
    ensures forall k :: 0 <= k < |out| ==> out[k] == BarangayOf(bs[Passing(bs, InCity(city))[k]])
    ensures forall k :: 0 <= k < |out| ==> out[k].psgcCode != "" && CityKeyOf(out[k].psgcCode) == city
    ensures forall i :: 0 <= i < |bs| && Truthy(bs[i].psgcCode) && CityKeyOf(bs[i].psgcCode.value) == city ==>
              BarangayOf(bs[i]) in out
  {
    forall i | 0 <= i < |bs| && InCity(city)(bs[i]) ensures BarangayOf(bs[i]) in FilterMap(bs, InCity(city), BarangayOf) {
      FilterMapComplete(bs, InCity(city), BarangayOf, i);
    }
    FilterMap(bs, InCity(city), BarangayOf)
  }

  /** A city entry with its barangays. */
  function CityOf(c: CityRow, bs: seq<BarangayRow>): (r: City)
    ensures r.psgcCode == c.psgcCode.GetOr("") && r.description == c.description
    ensures r.provinceCode == c.provinceCode
    ensures r.barangays == BarangaysOf(bs, r.psgcCode)
  {
    var code := c.psgcCode.GetOr("");
    City(code, c.description, c.provinceCode, BarangaysOf(bs, code))
  }

  /** `c.psgcCode`: the test a city row must pass to be listed. */
  predicate CityListed(c: CityRow)
  {
    Truthy(c.psgcCode)
  }

  /** The city entry of a row, with the barangays of `bs`. */
  function CityWith(bs: seq<BarangayRow>): CityRow -> City
  {
    (c: CityRow) => CityOf(c, bs)
  }

  /** The cities of a region with a non-empty code, each with its
      barangays: the `k`-th kept city is that of the `k`-th row with a
      code, so exactly those rows are kept, in row order. */
  function KeptCities(cs: seq<CityRow>, bs: seq<BarangayRow>): (out: seq<City>)
    ensures |out| == |Passing(cs, CityListed)| <= |cs|
    ensures forall k :: 0 <= k < |out| ==> out[k] == CityOf(cs[Passing(cs, CityListed)[k]], bs)
    ensures forall k :: 0 <= k < |out| ==> out[k].psgcCode != "" && out[k].barangays == BarangaysOf(bs, out[k].psgcCode)
    ensures forall i :: 0 <= i < |cs| && Truthy(cs[i].psgcCode) ==> CityOf(cs[i], bs) in out
  {
    forall i | 0 <= i < |cs| && CityListed(cs[i]) ensures CityOf(cs[i], bs) in FilterMap(cs, CityListed, CityWith(bs)) {
      FilterMapComplete(cs, CityListed, CityWith(bs), i);
    }
    FilterMap(cs, CityListed, CityWith(bs))
  }

  /** `p.psgcCode`: the test a province row must pass to be listed. */
  predicate ProvinceListed(p: ProvinceRow)
  {
    Truthy(p.psgcCode)
  }

  /** The provinces with a non-empty code, before their cities are
      attached: the `k`-th listed province is that of the `k`-th row with a
      code, so exactly those rows are listed, in row order. */
  function KeptProvinces(ps: seq<ProvinceRow>): (out: seq<Province>)
    ensures |out| == |Passing(ps, ProvinceListed)| <= |ps|
    ensures forall k :: 0 <= k < |out| ==> out[k] == ProvinceOf(ps[Passing(ps, ProvinceListed)[k]])
    ensures forall k :: 0 <= k < |out| ==> out[k].psgcCode != "" && out[k].citiesMunicipalities == []
    ensures forall i :: 0 <= i < |ps| && Truthy(ps[i].psgcCode) ==> ProvinceOf(ps[i]) in out
  {
    forall i | 0 <= i < |ps| && ProvinceListed(ps[i]) ensures ProvinceOf(ps[i]) in FilterMap(ps, ProvinceListed, ProvinceOf) {
      FilterMapComplete(ps, ProvinceListed, ProvinceOf, i);
    }
    FilterMap(ps, ProvinceListed, ProvinceOf)
  }

  /** A province entry, before its cities are attached. */
  function ProvinceOf(p: ProvinceRow): (r: Province)
    ensures r.psgcCode == p.psgcCode.GetOr("") && r.description == p.description && r.regionCode == p.regionCode
    ensures r.citiesMunicipalities == []
  {
    Province(p.psgcCode.GetOr(""), p.description, p.regionCode, [])
  }

  /** A region node: the listed provinces in row order, each holding
      exactly the kept cities whose province reference is the last two
      characters of its code, in row order. */
  function RegionOf(row: RegionRow): (r: RegionNode)
    ensures r.code == row.code && r.description == row.description
    ensures |r.provinces| == |KeptProvinces(row.provinces)|
    ensures forall i :: 0 <= i < |r.provinces| ==>
              r.provinces[i] == KeptProvinces(row.provinces)[i].(citiesMunicipalities :=
                KeyFilter(KeptCities(row.cities, row.barangays), CityKey, Some(ProvinceKeyOf(r.provinces[i].psgcCode))))
    ensures forall i, j :: 0 <= i < |r.provinces| && 0 <= j < |r.provinces[i].citiesMunicipalities| ==>
              r.provinces[i].citiesMunicipalities[j].provinceCode == Some(ProvinceKeyOf(r.provinces[i].psgcCode))
  {
    var cities := KeptCities(row.cities, row.barangays);
    var byProvince := BucketBy(cities, CityKey);
    LookupBuckets(cities, CityKey);
    var kept := KeptProvinces(row.provinces);
    RegionNode(row.code, row.description,
               seq(|kept|, i requires 0 <= i < |kept| =>
                 kept[i].(citiesMunicipalities := Lookup(byProvince, Some(ProvinceKeyOf(kept[i].psgcCode))))))
  }

  /** Every kept city whose province reference is the suffix of a kept
      province's code is listed under that province; a city whose reference
      matches no kept province is listed nowhere. */
  lemma CityPlacement(row: RegionRow, c: City)
    requires c in KeptCities(row.cities, row.barangays)
    ensures forall i :: 0 <= i < |RegionOf(row).provinces| ==>
              (c in RegionOf(row).provinces[i].citiesMunicipalities <==>
               c.provinceCode == Some(ProvinceKeyOf(RegionOf(row).provinces[i].psgcCode)))
  {
    var r := RegionOf(row);
    var cities := KeptCities(row.cities, row.barangays);
    forall i | 0 <= i < |r.provinces|
      ensures c in r.provinces[i].citiesMunicipalities <==> c.provinceCode == Some(ProvinceKeyOf(r.provinces[i].psgcCode))
    {
      var k :| 0 <= k < |cities| && cities[k] == c;
      assert r.provinces[i].psgcCode == KeptProvinces(row.provinces)[i].psgcCode;
    }
  }

  // ---------------------------------------------------------------------
  // The counters

  function BarangayCount(c: City): nat { |c.barangays| }

  function CityCount(p: Province): nat { |p.citiesMunicipalities| }

  function ProvinceCount(r: RegionNode): nat { |r.provinces| }

  /** The cities listed under the provinces of a region. */
  function ListedCities(r: RegionNode): nat { Total(r.provinces, CityCount) }

  /** The barangays attached to the kept cities of a region row, whether or
      not a province lists the city. */
  function CityBarangays(row: RegionRow): nat { Total(KeptCities(row.cities, row.barangays), BarangayCount) }

  /** The barangays attached to the cities, counted one city at a time. */
  method CountBarangays(cities: seq<City>) returns (n: nat)
    ensures n == Total(cities, BarangayCount)
  {
    n := 0;
    for j := 0 to |cities|
      invariant n == Total(cities[..j], BarangayCount)
    {
      TotalAppend(cities[..j], cities[j], BarangayCount);
      assert cities[..j + 1] == cities[..j] + [cities[j]];
      n := n + |cities[j].barangays|;
    }
    assert cities[..|cities|] == cities;
  }

  /** The cities listed under the provinces, counted one province at a time. */
  method CountCities(provinces: seq<Province>) returns (n: nat)
    ensures n == Total(provinces, CityCount)
  {
    n := 0;
    for j := 0 to |provinces|
      invariant n == Total(provinces[..j], CityCount)
    {
      TotalAppend(provinces[..j], provinces[j], CityCount);
      assert provinces[..j + 1] == provinces[..j] + [provinces[j]];
      n := n + |provinces[j].citiesMunicipalities|;
    }
    assert provinces[..|provinces|] == provinces;
  }

  /** The provinces of the regions, counted one region at a time. */
  method CountProvinces(regions: seq<RegionNode>) returns (n: nat)
    ensures n == Total(regions, ProvinceCount)
  {
    n := 0;
    for j := 0 to |regions|
      invariant n == Total(regions[..j], ProvinceCount)
    {
      TotalAppend(regions[..j], regions[j], ProvinceCount);
      assert regions[..j + 1] == regions[..j] + [regions[j]];
      n := n + |regions[j].provinces|;
    }
    assert regions[..|regions|] == regions;
  }

  /** The cities the provinces of the regions list, region by region. */
  method CountListedCities(regions: seq<RegionNode>) returns (n: nat)
    ensures n == Total(regions, ListedCities)
  {
    n := 0;
    for j := 0 to |regions|
      invariant n == Total(regions[..j], ListedCities)
    {
      var cities := CountCities(regions[j].provinces);
      TotalAppend(regions[..j], regions[j], ListedCities);
      assert regions[..j + 1] == regions[..j] + [regions[j]];
      n := n + cities;
    }
    assert regions[..|regions|] == regions;
  }

  /** The barangays attached to the kept cities of one region row. */
  method CountRegionBarangays(row: RegionRow) returns (n: nat)
    ensures n == CityBarangays(row)
  {
    n := CountBarangays(KeptCities(row.cities, row.barangays));
  }

  /** The barangays of the kept cities of the rows, row by row. */
  method CountRowBarangays(rows: seq<RegionRow>) returns (n: nat)
    ensures n == Total(rows, CityBarangays)
  {
    n := 0;
    for j := 0 to |rows|
      invariant n == Total(rows[..j], CityBarangays)
    {
      var barangays := CountRegionBarangays(rows[j]);
      TotalAppend(rows[..j], rows[j], CityBarangays);
      assert rows[..j + 1] == rows[..j] + [rows[j]];
      n := n + barangays;
    }
    assert rows[..|rows|] == rows;
  }

  /** One region per row, in order. The province and city counters count
      what the tree lists, so a city listed under two provinces counts
      twice; the barangay counter counts the barangays of every kept city,
      listed or not. */
  method LocationHierarchyOf(rows: seq<RegionRow>) returns (h: LocationHierarchy)
    ensures |h.data| == |rows| == h.meta.totalRegions
    ensures forall i :: 0 <= i < |rows| ==> h.data[i] == RegionOf(rows[i])
    ensures h.meta.totalProvinces == Total(h.data, ProvinceCount)
    ensures h.meta.totalCitiesMunicipalities == Total(h.data, ListedCities)
    ensures h.meta.totalBarangays == Total(rows, CityBarangays)
  {
    var data := seq(|rows|, i requires 0 <= i < |rows| => RegionOf(rows[i]));
    var totalProvinces := CountProvinces(data);
    var totalCities := CountListedCities(data);
    var totalBarangays := CountRowBarangays(rows);
    h := LocationHierarchy(data, LocationMeta(|data|, totalProvinces, totalCities, totalBarangays));
  }

  // ---------------------------------------------------------------------
  // Two regions that show how the counters differ from the tree

  const Silay := CityRow(Some("063019"), Some("Silay City"), Some("30"))
  const Guimbalaon := BarangayRow(Some("063019001"), Some("Guimbalaon"), None)

  /** A city no province claims lists nowhere, yet its barangay is counted. */
  lemma UnlistedCityBarangaysCounted()
    ensures var row := RegionRow("06", "Western Visayas", [], [Silay], [Guimbalaon]);
            && RegionOf(row).provinces == []
            && ListedCities(RegionOf(row)) == 0
            && CityBarangays(row) == 1
  {
    var row := RegionRow("06", "Western Visayas", [], [Silay], [Guimbalaon]);
    SilayHoldsGuimbalaon();
    var cities := KeptCities([Silay], [Guimbalaon]);
    assert cities == [CityOf(Silay, [Guimbalaon])];
    assert cities[..0] == [];
    assert Total(cities, BarangayCount) == 1;
  }

  lemma SilayHoldsGuimbalaon()
    ensures BarangaysOf([Guimbalaon], "063019") == [BarangayOf(Guimbalaon)]
  {
    assert CityKeyOf("063019001") == "063019";
  }

  /** Two provinces whose codes end alike both list the same city, and the
      city counter counts it twice. */
  lemma SharedSuffixCountedTwice()
    ensures var row := RegionRow("06", "Western Visayas",
                                 [ProvinceRow(Some("063000030"), None, None), ProvinceRow(Some("064500030"), None, None)],
                                 [Silay], []);
            && |KeptCities(row.cities, row.barangays)| == 1
            && ListedCities(RegionOf(row)) == 2
  {
    var p1 := ProvinceRow(Some("063000030"), None, None);
    var p2 := ProvinceRow(Some("064500030"), None, None);
    var row := RegionRow("06", "Western Visayas", [p1, p2], [Silay], []);
    SilayKept();
    TwoProvincesKept(p1, p2);
    var r := RegionOf(row);
    SilayUnderSuffix30();
    assert CityCount(r.provinces[0]) == 1 && CityCount(r.provinces[1]) == 1;
    TotalOfTwo(r.provinces, CityCount);
  }

  lemma SilayKept()
    ensures KeptCities([Silay], []) == [CityOf(Silay, [])]
  {
    assert [Silay][1..] == [];
  }

  lemma SilayUnderSuffix30()
    ensures KeyFilter([CityOf(Silay, [])], CityKey, Some(ProvinceKeyOf("063000030"))) == [CityOf(Silay, [])]
    ensures KeyFilter([CityOf(Silay, [])], CityKey, Some(ProvinceKeyOf("064500030"))) == [CityOf(Silay, [])]
  {
    assert ProvinceKeyOf("063000030") == "30";
    assert ProvinceKeyOf("064500030") == "30";
    assert [CityOf(Silay, [])][1..] == [];
  }

  lemma TwoProvincesKept(p1: ProvinceRow, p2: ProvinceRow)
    requires Truthy(p1.psgcCode) && Truthy(p2.psgcCode)
    ensures KeptProvinces([p1, p2]) == [ProvinceOf(p1), ProvinceOf(p2)]
  {
    assert [p2][1..] == [];
    assert [p1, p2][1..] == [p2];
  }

  lemma TotalOfTwo<T>(xs: seq<T>, size: T -> nat)
    requires |xs| == 2
    ensures Total(xs, size) == size(xs[0]) + size(xs[1])
  {
    assert Total(xs, size) == Total(xs[..1], size) + size(xs[1]);
    assert xs[..1][..0] == [];
    assert Total(xs[..1], size) == Total(xs[..1][..0], size) + size(xs[..1][0]);
  }
}
