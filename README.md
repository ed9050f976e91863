# Car sales dashboard: filtering, aggregation, drill-down and filter bar

This project models, in Dafny, the data core of a car-sales dashboard. The
dashboard loads three tables: dealers, car models and sales. A sale refers to
a dealer and a model by ID. The model covers four parts of the program:

- **`applyFilters`** (`src/lib/dataProcessing.ts`). It narrows the sales by
  country, city, brand, model name and an inclusive date range. Each step is
  skipped when its field is unset. A country, city, brand or model filter
  keeps a sale when ANY dealer or model with the sale's ID matches (`includes`).
- **`aggregateData`** (same file). It computes the KPI totals over the
  filtered sales and four breakdowns:
  - revenue by country, with each country's percentage of the total;
  - the three best-selling "Brand Model" cars;
  - profit and units by brand;
  - revenue by city, with a country for each city.

  The breakdowns join each sale to the FIRST dealer or model with its ID
  (`find`). A sale whose join fails counts in the totals but in no breakdown.
- **The drill-down modal** (`src/components/dashboard/DrillDownModal.tsx`).
  It lists the transactions of a clicked country, city, brand or model,
  taken from the whole data set, not from the filtered one. Each transaction
  is enriched with its dealer's and model's details, with "Unknown" for
  missing ones, and the list is sorted newest first. The modal shows totals
  and the average order value, and a table capped at 50 rows with a
  "Showing 50 of N" note.
- **The filter bar** (`src/components/dashboard/FilterPanel.tsx`). It
  produces the option lists of the four drop-downs: distinct, sorted, with
  cities scoped by the chosen country and models by the chosen brand. It also
  computes the "active filters" flag and the three updates: clear all, set
  one field (resetting the field that depends on it), and replace the date
  range.

**How the modelling is done**
- `applyFilters` and the four `forEach` loops of `aggregateData` update a
  variable step by step. They are methods (`Filtering.ApplyFilters` and the
  `Aggregation.Tally…` loops). Each is proved equal to a specification
  function, and that function's properties are proved as lemmas.
- A JavaScript `Map` is modelled as its list of entries in insertion order
  (`OrderedMaps`).
- The React components are pure computations over props and state, so they
  are functions.

**Behaviours of the code worth knowing**
- A city's country is not fixed by its first sale. The code overwrites it on
  every sale, so a city row carries the country of its last sale's dealer
  (`Breakdowns.CityRowValue`, `Breakdowns.CityCountryFromLastSale`).
- The filters match dealers with `includes` over all matching dealer IDs,
  while the breakdowns join with `find`, which takes the first dealer. With
  a repeated dealer ID the two disagree: a sale kept by a "Ghana" filter can
  be reported under "Nigeria" (`Breakdowns.DuplicateDealerIdDisagrees`).
  With unique IDs they agree (`Breakdowns.UniqueDealerIdsAgree`).
- The model drill-down matches a model whose bare name is the searched
  name OR whose "Brand Model" label is the clicked value. Clicking one brand's
  model therefore also lists same-named models of other brands
  (`DrillDown.ModelMatchAcrossBrands`).

## Model

| member | source | states |
|---|---|---|
| Filtering.DealerIds | src/lib/dataProcessing.ts:79-81 | an ID is listed iff some dealer satisfying the country or city test has it |
| Filtering.ModelIds | src/lib/dataProcessing.ts:93-95 | an ID is listed iff some model satisfying the brand or model-name test has it |
| Filtering.CountryStage | src/lib/dataProcessing.ts:78-83 | filtering by the country's dealer IDs (or skipping when the country is null or empty) yields exactly the sales passing the country test |
| Filtering.CityStage | src/lib/dataProcessing.ts:85-90 | the city step narrows the country-filtered sales to those also passing the city test, or leaves them when the city is unset |
| Filtering.BrandStage | src/lib/dataProcessing.ts:92-97 | the brand step adds the brand test, or is skipped when the brand is unset |
| Filtering.ModelStage | src/lib/dataProcessing.ts:99-104 | the model step adds the model-name test, or is skipped when the model is unset |
| Filtering.DateStages | src/lib/dataProcessing.ts:106-112 | the start and end steps add `date >= start` and `date <= end` when present, ending with exactly the sales meeting every predicate |
| Filtering.ApplyFilters | src/lib/dataProcessing.ts:75-115 | the imperative narrowing returns exactly the sales of the input that meet every active predicate, in input order |
| Filtering.SelectedIsSubsequence | src/lib/dataProcessing.ts:75-115 | the result is a subsequence of the sales: order kept, nothing invented |
| Filtering.SelectedExactly | src/lib/dataProcessing.ts:78-112 | a sale is kept iff it meets all active predicates, and then with all its occurrences |
| Filtering.NoConstraintKeepsAll | src/lib/dataProcessing.ts:76-114 | with every field null or empty, all sales come back unchanged |
| Filtering.BoundsInclusive | src/lib/dataProcessing.ts:106-112 | a sale dated exactly on a bound, meeting the other predicates, is kept |
| Joins.DealerOfSpec | src/lib/dataProcessing.ts:128 | the dealer `find` succeeds iff some dealer has the sale's ID, and it returns the first dealer with that ID |
| Joins.DealerOfUnique | src/lib/dataProcessing.ts:128 | with unique dealer IDs the `find` returns the dealer with the sale's ID |
| Joins.ModelOfSpec | src/lib/dataProcessing.ts:144 | the model `find` succeeds iff some model has the sale's ID, and it returns the first such model |
| Joins.ModelOfUnique | src/lib/dataProcessing.ts:144 | with unique model IDs the `find` returns the model with the sale's ID |
| OrderedMaps.PutKeys | src/lib/dataProcessing.ts:131 | `map.set` keeps the key order and appends a new key at the end |
| OrderedMaps.GetPut | src/lib/dataProcessing.ts:130-131 | after `map.set(k, v)`, `k` maps to `v` and every other key is unchanged |
| OrderedMaps.PutSum | src/lib/dataProcessing.ts:130-131 | `map.set` changes the sum of a measure of the values by the new value minus the old one |
| Grouping.GroupBySnoc | src/lib/dataProcessing.ts:127-133 | one more forEach iteration skips a sale that does not join, and otherwise sets its key to the step applied to the current value |
| Grouping.GroupKeys | src/lib/dataProcessing.ts:126-133 | the map's keys are the group keys of the joining sales, each once, in order of first appearance |
| Grouping.GroupValue | src/lib/dataProcessing.ts:126-133 | each key's value is the step folded over exactly the sales joining to that key, in order; keys no sale joins to are absent |
| Grouping.GroupDistinct | src/lib/dataProcessing.ts:126-133 | no key appears twice |
| Grouping.GroupAt | src/lib/dataProcessing.ts:126-133 | the entry at each position holds the fold over the sales of its own key |
| Grouping.GroupHasKey | src/lib/dataProcessing.ts:126-133 | a key is present iff some sale joins to a record with that key |
| Grouping.FoldSome | src/lib/dataProcessing.ts:130 | a group's value is defined iff the group has a sale |
| Grouping.GroupSum | src/lib/dataProcessing.ts:126-185 | when each step adds the sale's amount, the group values add up to that amount over the joining sales |
| Aggregation.CountryMapSnoc | src/lib/dataProcessing.ts:127-133 | one iteration of the country loop adds the sale's price to its dealer's country, or skips it when no dealer has its ID |
| Aggregation.CarMapSnoc | src/lib/dataProcessing.ts:143-150 | one iteration adds the units to the "Brand Model" key and records that model's brand |
| Aggregation.BrandMapSnoc | src/lib/dataProcessing.ts:159-168 | one iteration adds profit and units to the model's brand |
| Aggregation.CityMapSnoc | src/lib/dataProcessing.ts:176-185 | one iteration adds the price to the dealer's city and overwrites its country with this dealer's |
| Aggregation.TallyRevenueByCountry | src/lib/dataProcessing.ts:126-133 | the loop leaves `revenueByCountryMap` equal to the grouped country revenues |
| Aggregation.TallyQuantityByModel | src/lib/dataProcessing.ts:142-150 | the loop leaves `quantityByModel` equal to the grouped car quantities |
| Aggregation.TallyBrandMetrics | src/lib/dataProcessing.ts:158-168 | the loop leaves `brandMetrics` equal to the grouped brand profit and units |
| Aggregation.TallyRevenueByCity | src/lib/dataProcessing.ts:175-185 | the loop leaves `revenueByCityMap` equal to the grouped city revenues and countries |
| Aggregation.AggregateData | src/lib/dataProcessing.ts:117-200 | the method's result is `Aggregate` of the filtered sales: totals as sums, the four breakdowns as built and ordered by the source |
| Breakdowns.CountryFold | src/lib/dataProcessing.ts:130-131 | the value of a country whose sales all join is the sum of their prices |
| Breakdowns.CarFold | src/lib/dataProcessing.ts:147-148 | a car group holds the sum of its units and the brand of its last sale's model |
| Breakdowns.BrandFold | src/lib/dataProcessing.ts:162-166 | a brand group holds the sums of its profit and units |
| Breakdowns.CityFold | src/lib/dataProcessing.ts:179-183 | a city group holds the sum of its prices and the country of its last sale's dealer |
| Breakdowns.CountryGroup | src/lib/dataProcessing.ts:126-133 | every country entry has sales, and holds their revenue |
| Breakdowns.CarGroup | src/lib/dataProcessing.ts:142-150 | every car entry has sales, and holds their units and the brand of the last sale's model |
| Breakdowns.BrandGroup | src/lib/dataProcessing.ts:158-168 | every brand entry has sales, and holds their profit and units |
| Breakdowns.CityGroup | src/lib/dataProcessing.ts:175-185 | every city entry has sales, and holds their revenue and the last sale's dealer's country |
| Breakdowns.RowsDistinct | src/lib/dataProcessing.ts:135-139 | rows built from a map's entries keep the keys distinct |
| Breakdowns.SortedRowFrom | src/lib/dataProcessing.ts:152-154 | every row of a sorted breakdown comes from a map entry |
| Breakdowns.PercentageSpec | src/lib/dataProcessing.ts:138 | the percentage is 0 when the total is not positive, else the revenue's share of the total times 100 |
| Breakdowns.CountryOrder | src/lib/dataProcessing.ts:135-139 | countries appear once each, in order of first appearance among the joined filtered sales, with no sorting |
| Breakdowns.CountryRowValue | src/lib/dataProcessing.ts:135-139 | each country row holds the revenue of its filtered sales and its percentage of the total revenue |
| Breakdowns.CountryRowExists | src/lib/dataProcessing.ts:126-139 | a country has a row iff some filtered sale's `find`-resolved dealer is in it |
| Breakdowns.CountryRevenueTotal | src/lib/dataProcessing.ts:121-139 | country revenues add up to the revenue of the filtered sales whose dealer resolves, which is the total revenue when all resolve |
| Breakdowns.TopCarsShape | src/lib/dataProcessing.ts:152-155 | `topCars` has min(3, number of cars) rows, by non-increasing quantity |
| Breakdowns.TopCarsDistinct | src/lib/dataProcessing.ts:152-155 | no "Brand Model" appears twice among the top cars |
| Breakdowns.TopCarsAreTop | src/lib/dataProcessing.ts:152-155 | each top car is a car group, and no group left out sold more units than a shown one |
| Breakdowns.TopCarValue | src/lib/dataProcessing.ts:142-155 | each top car holds its group's units and the brand of the group's last sale's model |
| Breakdowns.ProfitByBrandSpec | src/lib/dataProcessing.ts:170-172 | `profitByBrand` is a permutation of the brand groups, sorted by non-increasing profit, each brand once |
| Breakdowns.ProfitTiesKeepOrder | src/lib/dataProcessing.ts:170-172 | brands of equal profit keep their first-appearance order (the sort is stable) |
| Breakdowns.BrandRowValue | src/lib/dataProcessing.ts:158-172 | each brand row holds the profit and units of the filtered sales of that brand |
| Breakdowns.BrandTotalsAddUp | src/lib/dataProcessing.ts:121-123 | brand profits and units add up to those of the filtered sales whose model resolves, which are the totals when all resolve |
| Breakdowns.SortedRowsSum | src/lib/dataProcessing.ts:170-189 | sorting the rows of a breakdown does not change the sum of a measure of its values |
| Breakdowns.RevenueByCitySpec | src/lib/dataProcessing.ts:187-189 | `revenueByCity` is a permutation of the city groups, sorted by non-increasing revenue, each city once |
| Breakdowns.CityRowValue | src/lib/dataProcessing.ts:175-189 | each city row holds its filtered sales' revenue and the country of its LAST sale's dealer |
| Breakdowns.CityRevenueTotal | src/lib/dataProcessing.ts:121-123 | city revenues add up to the revenue of the filtered sales whose dealer resolves, which is the total revenue when all resolve |
| Breakdowns.UniqueDealerIdsAgree | src/lib/dataProcessing.ts:78-83 | with unique dealer IDs and a country filter, every country row is the filtered country |
| Breakdowns.DuplicateDealerIdDisagrees | src/lib/dataProcessing.ts:82 | with a repeated dealer ID, a sale kept by a "Ghana" filter is counted under "Nigeria" |
| Breakdowns.CityCountryFromLastSale | src/lib/dataProcessing.ts:179-183 | two same-named cities merge into one row carrying the later sale's country |
| Words.Split | src/components/dashboard/DrillDownModal.tsx:52 | `split(' ')` returns at least one piece, and no piece contains a space |
| Words.AfterFirstSpaceSpec | src/components/dashboard/DrillDownModal.tsx:52 | the text after the first space, or "" when there is none |
| Words.AfterWord | src/components/dashboard/DrillDownModal.tsx:52 | after a space-free first word, the rest is what follows its space |
| Words.JoinSplit | src/components/dashboard/DrillDownModal.tsx:52 | joining the pieces of `split(' ')` with spaces gives back the string |
| Words.DropFirstWord | src/components/dashboard/DrillDownModal.tsx:52 | `split(' ').slice(1).join(' ')` is the text after the first space |
| DrillDown.DrillDownSelects | src/components/dashboard/DrillDownModal.tsx:28-61 | `DrillDownSales` (getFilteredSales) lists a subsequence of ALL sales holding each sale whose dealer or model matches the clicked group with all its occurrences, and no other; any other kind lists none |
| DrillDown.DrillDownIsFilter | src/components/dashboard/DrillDownModal.tsx:32-49 | a country, city or brand drill-down lists what `applyFilters` keeps from all sales with only that field set |
| DrillDown.ModelNameFromValue | src/components/dashboard/DrillDownModal.tsx:52 | without additional info, the model name is the clicked value after its first space |
| DrillDown.ModelMatchAcrossBrands | src/components/dashboard/DrillDownModal.tsx:50-57 | clicking "<brand> <name>" lists the sales of every model called <name>, of any brand |
| DrillDown.EnrichFromDealer | src/components/dashboard/DrillDownModal.tsx:67-73 | with unique dealer IDs, the dealer name, city and country are the dealer's, or "Unknown" when empty |
| DrillDown.EnrichFromModel | src/components/dashboard/DrillDownModal.tsx:68-76 | with unique model IDs, the brand, model and segment are the model's, or "Unknown" when empty |
| DrillDown.EnrichFallbacks | src/components/dashboard/DrillDownModal.tsx:66-77 | each row `Enrich` builds keeps its sale, shows no empty detail, and shows "Unknown" for a dealer or model no record has |
| DrillDown.RowsSpec | src/components/dashboard/DrillDownModal.tsx:66-78 | the drill-down rows (`Rows`: enriched, then sorted) are newest first and a permutation of the listed sales |
| DrillDown.RowsEnriched | src/components/dashboard/DrillDownModal.tsx:66-77 | every row of `Rows` is `Enrich` of its own sale |
| DrillDown.RowsStable | src/components/dashboard/DrillDownModal.tsx:78 | rows of equal date keep the selection's order |
| DrillDown.RowsSum | src/components/dashboard/DrillDownModal.tsx:81-83 | a per-row amount read from the sale sums the same over the rows as over the listed sales |
| DrillDown.SummaryTotals | src/components/dashboard/DrillDownModal.tsx:81-84 | `Summarize` gives totals that are sums over all listed sales, and an average order value of revenue over count, or 0 when there are none |
| DrillDown.Displayed | src/components/dashboard/DrillDownModal.tsx:148 | the table shows the first min(50, N) rows, in order |
| DrillDown.HiddenNote | src/components/dashboard/DrillDownModal.tsx:170-174 | the "Showing 50 of N" note appears iff rows are hidden, and then carries N, with 50 rows shown |
| FilterPanel.BelowIrreflexive | src/components/dashboard/FilterPanel.tsx:30 | the default sort order never puts a string before itself |
| FilterPanel.BelowTotal | src/components/dashboard/FilterPanel.tsx:30 | of two different strings, one sorts before the other |
| FilterPanel.BelowTransitive | src/components/dashboard/FilterPanel.tsx:30 | the default sort order is transitive |
| FilterPanel.InsertString | src/components/dashboard/FilterPanel.tsx:30 | inserting into the option list adds exactly that string |
| FilterPanel.InsertAscending | src/components/dashboard/FilterPanel.tsx:30 | inserting a new string into an ascending list keeps it ascending |
| FilterPanel.SortStrings | src/components/dashboard/FilterPanel.tsx:30 | `sort()` rearranges the strings without adding or losing any |
| FilterPanel.SortAscending | src/components/dashboard/FilterPanel.tsx:30 | `sort()` of distinct strings is strictly ascending |
| FilterPanel.Options | src/components/dashboard/FilterPanel.tsx:30 | `[...new Set(xs)].sort()` is strictly ascending (so each value once) and holds exactly the values of `xs` |
| FilterPanel.CountryOptions | src/components/dashboard/FilterPanel.tsx:29-32 | the countries offered are exactly the dealer countries, ascending, each once |
| FilterPanel.CityOptions | src/components/dashboard/FilterPanel.tsx:34-40 | the cities offered are exactly the cities of dealers in the chosen country (all dealers when none), ascending |
| FilterPanel.BrandOptions | src/components/dashboard/FilterPanel.tsx:42-45 | the brands offered are exactly the model brands, ascending |
| FilterPanel.ModelOptions | src/components/dashboard/FilterPanel.tsx:47-53 | the models offered are exactly the names of models of the chosen brand (all models when none), ascending |
| FilterPanel.ActiveMeansConstrained | src/components/dashboard/FilterPanel.tsx:55-56 | `HasActiveFilters` holds iff some field constrains `applyFilters`; when it does not, every sale is shown |
| FilterPanel.ClearFilters | src/components/dashboard/FilterPanel.tsx:58-66 | after clearing, every field is null and no filter is active |
| FilterPanel.ClearShowsAll | src/components/dashboard/FilterPanel.tsx:58-66 | after clearing, `applyFilters` returns every sale |
| FilterPanel.UpdateFilter | src/components/dashboard/FilterPanel.tsx:68-80 | the key gets the value; choosing a country nulls the city, choosing a brand nulls the model; nothing else changes |
| FilterPanel.CountryChoiceScopesCities | src/components/dashboard/FilterPanel.tsx:34-40 | after choosing a country, the city is unset and every city offered lies in that country |
| FilterPanel.PickerRangeOf | src/components/dashboard/FilterPanel.tsx:82-87 | the picker shows no range iff both bounds are null |
| FilterPanel.HandleDateRangeChange | src/components/dashboard/FilterPanel.tsx:89-97 | only the date range changes: a cleared picker nulls both bounds, otherwise the bounds are the picked ones |
| FilterPanel.PickerRoundTrip | src/components/dashboard/FilterPanel.tsx:82-97 | handing the picker's own range back leaves the filters unchanged |

## Left out

- `parseExcelFile` (src/lib/dataProcessing.ts:4-73) is not part of this model. It reads a workbook through a spreadsheet library and parses dates and numbers. The model starts from the parsed records.
- The number formatters (src/lib/dataProcessing.ts:202-213) are display code and are not modelled.
- The trend fields of `AggregatedData` (src/types/data.ts:55-57) are never computed by `aggregateData`, so the model's result omits them. Segment totals are not computed by the core either. A segment drill-down reaches the `default` branch and lists nothing (`DrillDown.DrillDownSelects`, kind `OtherKind`).
- Numbers: money, profit and quantities are integers, and the percentage and average order value are exact reals. IEEE rounding, `NaN` and invalid dates are not modelled.
- Dates are integer timestamps. A date bound is active whenever present, as a `Date` object always is.
- Strings sort by comparing characters by their code. The source compares UTF-16 code units, which differ only outside the Basic Multilingual Plane.
- React state, rendering, `useMemo` caching and the `onFiltersChange` callback are left out. Each filter-bar handler is a function returning the new `Filters` value.
- `getTypeLabel` and the modal's layout are display text, not data logic, and are not modelled.
- DrillDown.DrillDownIsFilter: requires a non-empty clicked value. `applyFilters` treats an empty filter string as unset, while the drill-down matches records whose field is empty.
- DrillDown.ModelMatchAcrossBrands: requires a brand without spaces. With a space in the brand, `split(' ').slice(1)` keeps part of the brand in the model name.
- DrillDown.EnrichFromDealer: requires unique dealer IDs. Without them the details come from the first dealer with the ID (`Joins.DealerOfSpec`).
- DrillDown.EnrichFromModel: requires unique model IDs. Without them the details come from the first model with the ID (`Joins.ModelOfSpec`).
