# Open Budget API — a Dafny model of the service logic

The Open Budget API serves the Philippine national budget from a graph
database. Each budget record has an amount in thousands of pesos, a fiscal
year, and a budget type: the proposed National Expenditure Program (NEP) or
the enacted General Appropriations Act (GAA). Records link to departments,
agencies, operating units, regions, funding sources and expense
classifications. The services run queries and then reshape the rows they
get back. This project models that reshaping as pure Dafny functions and
methods, and proves what the services promise about it.

The query results are the inputs of the model. A possibly-missing column
is an `Option`, and a row that may not exist is an `Option` of a row.
Amounts are exact `real`s.

The model covers these services:

- **Departments**: the department listing with shares of the NEP total,
  and the lookup by code. It also covers the department details: the
  NEP-versus-GAA comparison, the regional, funding and project breakdowns,
  the expense classification tree and the statistics.
- **Budget**: the filtered total, per-department shares, and the
  per-department NEP/GAA listing. It also covers the overall comparison,
  the three-year summary, and the mapped, paginated record listing.
- **Expense categories**: the per-category listing with its top
  sub-objects, and the classification → sub-class → group → object tree.
- **Organizations**: search and lookup, and the department → agency →
  operating-unit tree with its counters.
- **Funding sources**: the fund-cluster → funding-source tree with its
  counters, the listing and the lookup.
- **Regions**: the region listing with shares, and the regional allocation.
- **Locations**: the region → province → city → barangay tree with its
  counters.

Shared pieces:

- `Money` holds the pesos/thousands pair, the positive-base percent change,
  the three-way status and `toFixed(2)`.
- `Shares` holds the listing line used by departments, categories and
  regions.
- `Grouper` and `GroupPaths` hold the one-pass grouping fold and its
  reference definitions.
- `Buckets` holds the `Map`-of-lists grouping.
- `Seqs` holds running sums and first-seen order.

## Model

| member | source | states |
|---|---|---|
| Money.MoneyOf | src/modules/departments/departments.service.ts:94-97 | every pesos figure is its thousands amount times 1000 |
| Money.PctChange | src/modules/departments/departments.service.ts:87-88 | a base that is not positive gives 0; otherwise the comparand is the base grown by the percent, and the percent is positive (negative) exactly when the base is positive and the comparand is larger (smaller) |
| Money.ShareOf | src/modules/departments/departments.service.ts:85-86 | a total that is not positive gives 0; otherwise share × total = part × 100, within 0..100 for a part of the total |
| Money.StatusOf | src/modules/departments/departments.service.ts:304-309 | Increased, Decreased or No Change exactly as the percent is positive, negative or zero |
| Money.Compare | src/modules/departments/departments.service.ts:292-310 | difference is comparand minus base with pesos; status is Increased iff the base is positive and the comparand larger, Decreased iff the base is positive and the comparand smaller, No Change otherwise |
| Money.CompareSwap | src/modules/budget/budget.service.ts:329-338 | swapping the sides negates the difference and, for positive sides, flips the status |
| Money.ZeroBaseIsNotComparable | src/modules/departments/departments.service.ts:295 | 0 → 500 reports 0 % and No Change, while 500 → 0 reports −100 % and Decreased |
| Money.Round2 | src/modules/departments/departments.service.ts:95 | the rounded percent is a multiple of 0.01 within 0.005 of the exact one, strictly closer on the side toward zero so that ties go away from zero, and keeps its sign |
| Money.Round2Unique | src/modules/departments/departments.service.ts:95 | any multiple of 0.01 that meets the same bounds and tie rule is the rounded value, so the rounding is fully determined |
| Money.StatusPrecedesRounding | src/modules/departments/departments.service.ts:303-309 | the status comes from the unrounded percent: 100000 → 100001 reports Increased with a rounded 0 % |
| Money.SharesSumTo100 | src/modules/budget/budget.service.ts:87-101 | the shares of parts in their own sum add up to exactly 100 |
| Money.SharesOfNonPositiveTotal | src/modules/budget/budget.service.ts:100 | every share of a total that is not positive is 0 |
| Shares.LineOf | src/modules/departments/departments.service.ts:79-99 | missing sums read as 0; pesos derived; share of the NEP total and NEP→GAA percent, each rounded and within 0.005 of the exact value; a zero NEP reports 0 % |
| Shares.SharesOfSumRows | src/modules/expense-categories/expense-categories.service.ts:66-85 | when the total is the sum of the rows, the exact shares add up to 100 and the emitted ones to within 0.005 per line of 100 |
| Departments.AllDepartments | src/modules/departments/departments.service.ts:26-122 | the budget variant iff the flag, year and type are all given; one line per row, in order, with its agency count; otherwise the plain list |
| Departments.DepartmentSharesSumTo100 | src/modules/departments/departments.service.ts:79-99 | department shares of the NEP total add up to 100 up to rounding |
| Departments.DepartmentByCode | src/modules/departments/departments.service.ts:124-169 | no row gives null; a row gives its code and description, with a total (missing read as 0, pesos derived) exactly in the budget variant |
| Departments.BudgetComparisonOf | src/modules/departments/departments.service.ts:280-310 | a missing totals row or sum reads as 0; difference GAA − NEP with pesos; percent rounded; status from the unrounded percent, three ways |
| Departments.DiffLineOf | src/modules/departments/departments.service.ts:324-340 | region and funding breakdown lines: GAA − NEP with pesos, rounded percent under the positive-NEP guard |
| Departments.DepartmentDetails | src/modules/departments/departments.service.ts:171-556 | null iff no department row; agencies and classes always listed, with budgets only for a year; comparison, regions, funding sources, expense tree and projects present iff a year is given; each statistic is its list's length, 0 when absent |
| Departments.DetailsWithoutYear | src/modules/departments/departments.service.ts:185-197 | without a year only agencies and operating-unit classes are counted |
| Departments.ZeroNepReportsNoChange | src/modules/departments/departments.service.ts:292-336 | a non-positive NEP gives 0 % and No Change, in the comparison and in the breakdowns alike |
| Grouper.FoldValid | src/modules/departments/departments.service.ts:436-513 | the one-pass fold yields a tree whose every group, sub-class and classification totals the sum of its children, with pesos derived at every level; the top totals are the sums over all rows |
| GroupPaths.FoldLeaves | src/modules/expense-categories/expense-categories.service.ts:250-259 | the objects under a full key path are exactly the rows with that path, in input order |
| GroupPaths.FoldAt | src/modules/expense-categories/expense-categories.service.ts:214-248 | the node at a key prefix exists iff some row has that prefix; it carries the first such row's description and totals all such rows |
| GroupPaths.FoldChildCodes | src/modules/expense-categories/expense-categories.service.ts:269-287 | the children under a prefix are the distinct next-level keys of the matching rows, in first-seen order |
| GroupPaths.TopLevelOrder | src/modules/expense-categories/expense-categories.service.ts:212-226 | the top-level codes are the distinct first keys, once each, in first-seen order, and a code is listed iff some row has it |
| Expense.BuildExpenseHierarchy | src/modules/expense-categories/expense-categories.service.ts:212-287 | the built tree is rolled up at every level and its top totals equal the NEP and GAA sums of the rows |
| Expense.ExpenseObjects | src/modules/expense-categories/expense-categories.service.ts:250-259 | each row yields one object under its classification, sub-class and group, after those of earlier rows |
| Expense.ExpenseNodes | src/modules/expense-categories/expense-categories.service.ts:214-248 | a node exists iff a row has its prefix; description from the first such row; totals over all such rows |
| Expense.ExpenseKeyOrder | src/modules/expense-categories/expense-categories.service.ts:269-287 | at every level the children appear once each, in first-seen order |
| Expense.ExpenseClassificationOrder | src/modules/expense-categories/expense-categories.service.ts:212-226 | the classifications are the distinct classification codes of the rows, in first-seen order, without duplicates |
| Expense.AllExpenseCategories | src/modules/expense-categories/expense-categories.service.ts:127-145 | without a year, only code and description of each classification row, in order; with one, the rolled-up tree |
| Expense.BudgetByExpenseCategory | src/modules/expense-categories/expense-categories.service.ts:14-125 | one line per category row, in order, with record count defaulting to 0; the top sub-objects, with pesos, exactly when requested |
| Expense.CategorySharesSumTo100 | src/modules/expense-categories/expense-categories.service.ts:66-85 | category shares of the NEP total add up to 100 up to rounding |
| Budget.BudgetTotalOf | src/modules/budget/budget.service.ts:19-60 | a missing or zero sum gives 0; pesos derived; currency PHP; the department and region filters are echoed iff given as non-empty strings |
| Budget.BudgetByDepartment | src/modules/budget/budget.service.ts:62-103 | one line per row, in order; each percentage is the row's share of the sum of all returned rows |
| Budget.DepartmentPercentagesSumTo100 | src/modules/budget/budget.service.ts:87-101 | the percentages add up to exactly 100 when the grand total is positive, and to 0 otherwise |
| Budget.BudgetByDepartmentAll | src/modules/budget/budget.service.ts:105-189 | the GAA-only variant copies the per-department GAA lines; the other pairs NEP and GAA with pesos, the unrounded percent change and the change in pesos |
| Budget.ChangeIsPesosDifference | src/modules/budget/budget.service.ts:166-187 | the change in pesos is the difference of the two pesos amounts; the percent is positive iff NEP is positive and GAA exceeds it |
| Budget.CompareNepVsGaa | src/modules/budget/budget.service.ts:191-265 | no row is an error with the fixed message; otherwise the difference is in pesos, the status is Increased/Decreased/No Change by the guarded sign, and department fields appear iff filtered by department |
| Budget.NatDigits | src/modules/budget/budget.service.ts:295 | `String(n)` is a non-empty digit string without a leading zero |
| Budget.DigitsRoundTrip | src/modules/budget/budget.service.ts:295 | reading back the decimal string of n gives n |
| Budget.ShiftedYear | src/modules/budget/budget.service.ts:295-312 | the previous and next year strings are "NaN" for a year that is not a number; otherwise a shifted year that is not negative is a non-empty digit string without a leading zero that reads back as the year plus the shift, and a negative one is a minus sign followed by such digits of its magnitude |
| Budget.CanonicalDigits | src/modules/budget/budget.service.ts:295 | a non-empty digit string without a leading zero is the decimal form of its value, so the year string sent as `fiscal_year` is exactly `String(n)` |
| Budget.ChangeOf | src/modules/budget/budget.service.ts:329-338 | difference comparand − base with pesos, rounded percent, status label from the unrounded guarded percent |
| Budget.BudgetSummary | src/modules/budget/budget.service.ts:267-453 | no selected-year row is an error naming the year; missing neighbouring years read as 0; previous year compared as selected against previous, next year as next against selected; counts default to 0 |
| Budget.SummariesAgreeAcrossYears | src/modules/budget/budget.service.ts:329-338 | the next-year comparison of one year equals the previous-year comparison of the following year |
| Records.Inside | src/modules/budget/budget.service.ts:528-560 | a nested part exists only inside a present parent |
| Records.MapRecord | src/modules/budget/budget.service.ts:502-581 | pesos derived; description defaults to ""; location exists iff the region does, funding iff the funding source does, classification iff the sub-object does; agency and operating unit pass through independently |
| Records.MapRecordRoundTrip | src/modules/budget/budget.service.ts:502-581 | the mapping loses exactly what the mask clears: reading the record back gives the masked row, and two rows map alike iff their masks agree |
| Records.Offset | src/modules/budget/budget.service.ts:461 | the offset plus the page size is the end of the page |
| Records.PagesTile | src/modules/budget/budget.service.ts:461 | page 1 starts at 0 and each page starts where the previous one ends |
| Records.TotalPages | src/modules/budget/budget.service.ts:591 | `ceil(total / limit)`: the fewest pages of `limit` covering the total; a zero limit gives Infinity or NaN |
| Records.RecordsMapped | src/modules/budget/budget.service.ts:455-594 | one record per row, in order; a missing or zero count gives total 0; the page count follows the total |
| Organizations.SearchOrganizations | src/modules/organizations/organizations.service.ts:16-112 | one organization per row, in order, with a total (missing read as 0) exactly in the budget variant |
| Organizations.OrganizationByCode | src/modules/organizations/organizations.service.ts:114-188 | no row gives null; otherwise the row's organization |
| Organizations.AgencyCodeOf | src/modules/organizations/organizations.service.ts:211 | up to three characters of the UACS code starting at index 2 |
| Organizations.KeptUnits | src/modules/organizations/organizations.service.ts:243-256 | the k-th listed operating unit is the unit of the k-th row, in row order, whose code and UACS code are both non-empty; so every listed unit comes from such a row, every such row is listed, and row order is kept |
| Organizations.KeptAgencies | src/modules/organizations/organizations.service.ts:259-268 | the k-th listed agency is that of the k-th row, in row order, whose code and UACS code are both non-empty, with no operating units yet attached; so exactly those rows are listed, in row order |
| Organizations.DepartmentOf | src/modules/organizations/organizations.service.ts:241-280 | the department keeps its row's code, description and abbreviation; its agencies are the listed agencies in row order, each holding exactly the listed operating units whose derived agency code is its code, in row order, and no other |
| Organizations.UnmatchedUnitsDropped | src/modules/organizations/organizations.service.ts:262 | a unit whose derived code names no kept agency is under no agency |
| Organizations.OrganizationHierarchy | src/modules/organizations/organizations.service.ts:236-289 | one department per row, in order; the agency counter is the number of kept agencies and the unit counter the number of units attached to them |
| Organizations.CountAgencies | src/modules/organizations/organizations.service.ts:236-273 | the running agency counter ends at the number of agencies summed over all departments |
| Organizations.CountDepartmentUnits | src/modules/organizations/organizations.service.ts:237-263 | the running unit counter ends at the number of units under the agencies of all departments |
| Funding.Kept | src/modules/funding-sources/funding-sources.service.ts:52-54 | the k-th kept entry is the k-th collected entry that passes the test, so an entry is kept iff it is collected and passes, in collected order |
| Funding.HierarchyWith | src/modules/funding-sources/funding-sources.service.ts:49-74 | one cluster per row, in order, with its filtered entries; the counters are the number of clusters and of kept entries, and the distinct financing-source codes among them, never more than the entries; authorizations are 0 |
| Funding.FinancingCodesExact | src/modules/funding-sources/funding-sources.service.ts:67-71 | the codes whose distinct values the financing-source counter counts are exactly the financing-source codes of the listed entries: each listed entry contributes its code and every code comes from a listed entry |
| Funding.HierarchyAsWritten | src/modules/funding-sources/funding-sources.service.ts:52-54 | as written, an entry whose code is null is kept |
| Funding.Hierarchy | src/modules/funding-sources/funding-sources.service.ts:49-74 | with the corrected test every listed entry has a UACS code |
| Funding.EmptyClusterCounted | src/modules/funding-sources/funding-sources.service.ts:17-27 | a cluster without funding sources reports 1 funding source and 1 financing source as written, 0 and 0 corrected |
| Funding.KeptCoded | src/modules/funding-sources/funding-sources.service.ts:52-54 | with the corrected test a cluster keeps as many entries as carry a UACS code, counted entry by entry |
| Funding.CorrectedCountsCodedEntries | src/modules/funding-sources/funding-sources.service.ts:57-60 | the corrected funding-source counter equals the number of entries, over all clusters, that carry a UACS code, counted entry by entry independently of the filter |
| Funding.AllFundingSources | src/modules/funding-sources/funding-sources.service.ts:77-138 | one funding source per row, in order, with a total (missing read as 0, pesos derived) exactly in the budget variant |
| Funding.FundingSourceByCode | src/modules/funding-sources/funding-sources.service.ts:140-202 | no row gives null; otherwise the row's funding source |
| Regions.AllRegions | src/modules/regions/regions.service.ts:11-106 | the budget variant iff the flag, year and type are all given; one share line per row, in order; otherwise the plain list |
| Regions.RegionSharesSumTo100 | src/modules/regions/regions.service.ts:63-85 | region shares add up to 100 up to rounding, and a region without NEP reports 0 % |
| Regions.AllocationOf | src/modules/regions/regions.service.ts:139-146 | missing total, record count and percentage each read as 0; pesos derived; a department breakdown exactly when requested |
| Regions.RegionalAllocation | src/modules/regions/regions.service.ts:108-183 | one allocation per row, in order |
| Regions.AllocationTotals | src/modules/regions/regions.service.ts:139-146 | the allocations account for every row's budget, and their pesos column totals 1000 times their amount column |
| Regions.DepartmentAmountOf | src/modules/regions/regions.service.ts:173-178 | the breakdown line carries its amount and the amount in pesos |
| Locations.CityKeyOf | src/modules/locations/location.service.ts:35 | the city key is a prefix of the barangay code, six characters long when the code is |
| Locations.ProvinceKeyOf | src/modules/locations/location.service.ts:96 | the province key is the last two characters of the province code, or the whole code when shorter |
| Locations.KeptProvinces | src/modules/locations/location.service.ts:92-95 | the k-th listed province is the k-th province row with a non-empty code, so exactly those rows are listed, in row order, before their cities are attached |
| Locations.BarangaysOf | src/modules/locations/location.service.ts:71-80 | the k-th barangay of a city is the k-th barangay row, in row order, with a non-empty code whose city key is the city's code, so exactly those rows are listed; the status defaults to "" |
| Locations.KeptCities | src/modules/locations/location.service.ts:62-90 | the k-th kept city is the k-th city row with a non-empty code, so exactly those rows are kept, in row order, each with its barangays |
| Locations.RegionOf | src/modules/locations/location.service.ts:47-114 | a region node carries its row's code and description and lists the kept provinces in row order, each holding exactly the kept cities whose province reference is the last two characters of its code, in row order |
| Locations.CityPlacement | src/modules/locations/location.service.ts:92-97 | a kept city is under a province iff its reference equals that province's suffix, so a city matching no province is listed nowhere |
| Locations.LocationHierarchyOf | src/modules/locations/location.service.ts:43-124 | one region per row, in order; the province and city counters count what the tree lists; the barangay counter counts the barangays of every kept city |
| Locations.CountProvinces | src/modules/locations/location.service.ts:43-107 | the running province counter ends at the number of provinces listed over all regions |
| Locations.CountListedCities | src/modules/locations/location.service.ts:44-98 | the running city counter ends at the number of cities listed under the provinces of all regions |
| Locations.CountRowBarangays | src/modules/locations/location.service.ts:45-82 | the running barangay counter ends at the number of barangays of every kept city of every region row |
| Locations.UnlistedCityBarangaysCounted | src/modules/locations/location.service.ts:82-97 | a city no province claims lists nowhere, yet its barangay is counted |
| Locations.SharedSuffixCountedTwice | src/modules/locations/location.service.ts:96-98 | two provinces with the same code suffix both list a city, and the city counter counts it twice |
| Buckets.LookupBucket | src/modules/organizations/organizations.service.ts:241-262 | reading a key back from the one-pass bucket map gives exactly the items with that key, in input order, and [] for a key no item has |
| Buckets.KeyFilterOrder | src/modules/locations/location.service.ts:66-89 | the items a key's list holds are, in input order, exactly the items with that key: the i-th is the i-th item of the input whose key matches |
| Seqs.FirstSeenSpec | src/modules/expense-categories/expense-categories.service.ts:269 | first-seen order has no duplicates, holds exactly the items, and orders them by first occurrence |
| Seqs.DistinctBound | src/modules/funding-sources/funding-sources.service.ts:67-71 | a sequence has no more distinct values than elements |

## Left out

- The database queries (Cypher), the connection, the controllers, request validation and logging are left out. The rows a query returns are inputs; what the query computes itself is taken as given. This covers sums, counts, `ORDER BY`, `LIMIT`, `collect(DISTINCT …)`, the allocation and all-department percentages, and the cluster and city/barangay keys.
- Fetches of rows that depend on earlier results (the top sub-objects of a category, the department breakdown of a region) are function parameters.
- `Promise.all` concurrency and the async error propagation are left out. A thrown error is a `Failure`.
- Floating point is not modelled: amounts are exact reals. So `Money.Round2` models `toFixed(2)` on exact values, with ties away from zero. The binary representation that `toFixed` actually rounds is not modelled.
- Neo4j integers and `Number(...)` conversions are taken as already numeric.
- `search` and `department` filters of the organization search live in the query and are not modelled.
- `Budget.YearNumber`, `Budget.ShiftedYear`: only the empty string and strings of decimal digits are read as numbers. Everything else gives "NaN". `Number()`'s signs, whitespace, decimals, hexadecimal and exponents are not modelled. A digit string is read exactly at any length, while `Number()` loses precision beyond about 16 digits and gives `Infinity` for very long strings.
- `Organizations.AgencyCodeOf`, `Locations.CityKeyOf`: Cypher `substring` on a code shorter than the requested range is modelled as clipping to the string.
- `Records.TotalPages`: `Math.ceil` of a negative quotient is modelled on exact values. A negative limit is not rejected, because the service does not reject it.
- `Regions.AllocationOf`: an amount missing from a department breakdown row is not modelled (the query's `sum` never yields null there).
- No separate rollup step after grouping is modelled: the expense fold adds each row's amounts to every node on its path during the single pass, as the code does.
- The expense fold has no case for rows with null keys: the query's `MATCH` already excludes them, and the code does not test for them.
- The percent change against a zero base is 0 one way and −100 % the other, so `Money.Compare` is not symmetric; the model keeps this asymmetry.

## Findings

| source | as written | input that shows it | evidently intended | confidence | as-written member | corrected member |
|---|---|---|---|---|---|---|
| src/modules/funding-sources/funding-sources.service.ts:52-54 | funding-source entries are dropped only when `uacsCode` is `undefined`; for a fund cluster without funding sources, the optional match collects one entry whose fields are all null, and the driver returns null, so that entry is kept | a fund cluster "01" with no funding source: the response lists one empty funding source, `totalFundingSources` is 1 and `totalFinancingSources` is 1 | the type guard `fs is Required<typeof fs>` says to keep only entries that have a code, so the cluster lists none and both counters are 0 | medium, not executed | Funding.HierarchyAsWritten (shown by Funding.EmptyClusterCounted) | Funding.Hierarchy (Funding.CorrectedCountsCodedEntries) |
