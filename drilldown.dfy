/** The drill-down view (src/components/dashboard/DrillDownModal.tsx):
    clicking a country, city, brand or model in a chart lists that
    group's transactions, taken from the whole data set and not from the
    filtered one, each enriched with its dealer's and model's details,
    newest first, with revenue, profit, unit and average-order totals and
    a table capped at fifty rows. */
module DrillDown {
  import opened DataTypes
  import opened Seqs
  import opened Joins
  import opened Filtering
  import opened Words

  /** The chart element that was clicked. The source's type admits the
      four named kinds only; `OtherKind` is what an untyped caller could
      still pass, and it reaches the `default` branch. */
  datatype DrillKind = CountryKind | CityKind | BrandKind | ModelKind | OtherKind(name: string)

  datatype DrillDownRequest = DrillDownRequest(
    kind: DrillKind,
    labelText: string,  // the `label` field
    value: string,
    additionalInfo: Option<string>)

  // ---------------------------------------------------------------------
  // Selecting the transactions (getFilteredSales)

  /** The model name searched for: the additional info when it is a
      non-empty string, else the value with its first word dropped. */
  function ModelName(req: DrillDownRequest): string {
    if IsSet(req.additionalInfo) then req.additionalInfo.value else Join(Split(req.value)[1..])
  }

  /** A model is picked when its bare name is the model name OR its
      "Brand Model" label is the clicked value. */
  function ModelMatches(name: string, value: string): CarModel -> bool {
    (m: CarModel) => m.name == name || m.brand + " " + m.name == value
  }

  /** The sales the drill-down lists, before enrichment and sorting. */
  function DrillDownSales(data: DashboardData, req: DrillDownRequest): seq<Sale> {
    match req.kind
    case CountryKind => Filter(data.sales, DealerIn(DealerIds(data.dealers, CountryIs(req.value))))
    case CityKind => Filter(data.sales, DealerIn(DealerIds(data.dealers, CityIs(req.value))))
    case BrandKind => Filter(data.sales, ModelIn(ModelIds(data.models, BrandIs(req.value))))
    case ModelKind => Filter(data.sales, ModelIn(ModelIds(data.models, ModelMatches(ModelName(req), req.value))))
    case OtherKind(_) => []
  }

  /** What a sale must satisfy to be listed, stated on the records. */
  predicate Listed(data: DashboardData, req: DrillDownRequest, s: Sale) {
    match req.kind
    case CountryKind => exists d :: d in data.dealers && d.country == req.value && d.dealerId == s.dealerId
    case CityKind => exists d :: d in data.dealers && d.city == req.value && d.dealerId == s.dealerId
    case BrandKind => exists m :: m in data.models && m.brand == req.value && m.modelId == s.modelId
    case ModelKind =>
      exists m :: m in data.models && m.modelId == s.modelId
        && (m.name == ModelName(req) || m.brand + " " + m.name == req.value)
    case OtherKind(_) => false
  }

  /** The drill-down keeps, in their order and with all their occurrences,
      exactly the sales of the whole data set that belong to the clicked
      group; any other kind lists none. */
  lemma DrillDownSelects(data: DashboardData, req: DrillDownRequest, s: Sale)
    ensures IsSubsequence(DrillDownSales(data, req), data.sales)
    ensures s in DrillDownSales(data, req) <==> s in data.sales && Listed(data, req, s)
    ensures multiset(DrillDownSales(data, req))[s] ==
              if Listed(data, req, s) then multiset(data.sales)[s] else 0
    ensures req.kind.OtherKind? ==> DrillDownSales(data, req) == []
  {
    match req.kind
    case CountryKind =>
      var p := DealerIn(DealerIds(data.dealers, CountryIs(req.value)));
      FilterIsSubsequence(data.sales, p);
      FilterCount(data.sales, p, s);
    case CityKind =>
      var p := DealerIn(DealerIds(data.dealers, CityIs(req.value)));
      FilterIsSubsequence(data.sales, p);
      FilterCount(data.sales, p, s);
    case BrandKind =>
      var p := ModelIn(ModelIds(data.models, BrandIs(req.value)));
      FilterIsSubsequence(data.sales, p);
      FilterCount(data.sales, p, s);
    case ModelKind =>
      var p := ModelIn(ModelIds(data.models, ModelMatches(ModelName(req), req.value)));
      FilterIsSubsequence(data.sales, p);
      FilterCount(data.sales, p, s);
    case OtherKind(_) =>
  }

  /** The dashboard filters with only the clicked field set. */
  function FilterFor(req: DrillDownRequest): Filters {
    var none := Filters(None, None, None, None, DateRange(None, None));
    match req.kind
    case CountryKind => none.(country := Some(req.value))
    case CityKind => none.(city := Some(req.value))
    case BrandKind => none.(brand := Some(req.value))
    case _ => none
  }

  /** A country, city or brand drill-down lists what `applyFilters` would
      keep from the whole data set with that one field set. */
  lemma DrillDownIsFilter(data: DashboardData, req: DrillDownRequest)
    requires req.kind.CountryKind? || req.kind.CityKind? || req.kind.BrandKind?
    requires req.value != ""
    ensures DrillDownSales(data, req) == Selected(data, FilterFor(req))
  {
    var f := FilterFor(req);
    var p := match req.kind
      case CountryKind => DealerIn(DealerIds(data.dealers, CountryIs(req.value)))
      case CityKind => DealerIn(DealerIds(data.dealers, CityIs(req.value)))
      case _ => ModelIn(ModelIds(data.models, BrandIs(req.value)));
    assert DrillDownSales(data, req) == Filter(data.sales, p);
    forall s | s in data.sales ensures p(s) == Matches(data, f)(s) {
      assert Matches(data, f)(s) == SaleMatches(data, f, s);
    }
    FilterExt(data.sales, p, Matches(data, f));
  }

  /** Without additional info, the model name is the text after the first
      space of the clicked value ("" when it has none). */
  lemma ModelNameFromValue(req: DrillDownRequest)
    requires !IsSet(req.additionalInfo)
    ensures ModelName(req) == AfterFirstSpace(req.value)
  {
    DropFirstWord(req.value);
  }

  /** The OR match reaches across brands: with no additional info,
      clicking "<brand> <name>" lists the sales of every model called
      <name>, whatever its brand. */
  lemma ModelMatchAcrossBrands(data: DashboardData, req: DrillDownRequest, brand: string, m: CarModel, s: Sale)
    requires req.kind == ModelKind && !IsSet(req.additionalInfo)
    requires ' ' !in brand && req.value == brand + " " + m.name
    requires m in data.models && s in data.sales && s.modelId == m.modelId
    ensures s in DrillDownSales(data, req)
  {
    ModelNameFromValue(req);
    AfterWord(brand, m.name);
    DrillDownSelects(data, req, s);
  }

  // ---------------------------------------------------------------------
  // Enriching and ordering the rows

  /** A listed transaction: the sale's own fields plus its dealer's and
      model's details. */
  datatype EnrichedSale = EnrichedSale(
    sale: Sale,
    dealerName: string,
    city: string,
    country: string,
    brand: string,
    model: string,
    segment: string)

  /** `x || 'Unknown'` on a string that is present. */
  function OrUnknown(s: string): string {
    if s == "" then "Unknown" else s
  }

  /** Joins the sale to the first dealer and model with its IDs; a failed
      join or an empty detail shows as "Unknown". */
  function Enrich(data: DashboardData, s: Sale): EnrichedSale {
    var d := DealerOf(data.dealers, s);
    var m := ModelOf(data.models, s);
    EnrichedSale(
      s,
      if d.Some? then OrUnknown(d.value.dealerName) else "Unknown",
      if d.Some? then OrUnknown(d.value.city) else "Unknown",
      if d.Some? then OrUnknown(d.value.country) else "Unknown",
      if m.Some? then OrUnknown(m.value.brand) else "Unknown",
      if m.Some? then OrUnknown(m.value.name) else "Unknown",
      if m.Some? then OrUnknown(m.value.segment) else "Unknown")
  }

  function EnrichWith(data: DashboardData): Sale -> EnrichedSale {
    (s: Sale) => Enrich(data, s)
  }

  function RowDate(e: EnrichedSale): int { e.sale.date }
  function RowSale(e: EnrichedSale): Sale { e.sale }

  /** The rows, newest first; rows of equal date keep the selection's order. */
  function Rows(data: DashboardData, req: DrillDownRequest): seq<EnrichedSale> {
    SortByDesc(Map(DrillDownSales(data, req), EnrichWith(data)), RowDate)
  }

  /** With unique dealer IDs, a sale's dealer details are its dealer's,
      each replaced by "Unknown" only when empty. */
  lemma EnrichFromDealer(data: DashboardData, s: Sale, d: Dealer)
    requires Distinct(Map(data.dealers, DealerIdOf))
    requires d in data.dealers && d.dealerId == s.dealerId
    ensures var e := Enrich(data, s);
            && e.dealerName == (if d.dealerName == "" then "Unknown" else d.dealerName)
            && e.city == (if d.city == "" then "Unknown" else d.city)
            && e.country == (if d.country == "" then "Unknown" else d.country)
  {
    DealerOfUnique(data.dealers, s, d);
  }

  /** With unique model IDs, a sale's model details are its model's,
      each replaced by "Unknown" only when empty. */
  lemma EnrichFromModel(data: DashboardData, s: Sale, m: CarModel)
    requires Distinct(Map(data.models, ModelIdOf))
    requires m in data.models && m.modelId == s.modelId
    ensures var e := Enrich(data, s);
            && e.brand == (if m.brand == "" then "Unknown" else m.brand)
            && e.model == (if m.name == "" then "Unknown" else m.name)
            && e.segment == (if m.segment == "" then "Unknown" else m.segment)
  {
    ModelOfUnique(data.models, s, m);
  }

  /** A sale whose IDs resolve to nothing shows "Unknown" details, and
      every row keeps the sale and shows no empty detail. */
  lemma EnrichFallbacks(data: DashboardData, s: Sale)
    ensures var e := Enrich(data, s);
            && e.sale == s
            && e.dealerName != "" && e.city != "" && e.country != ""
            && e.brand != "" && e.model != "" && e.segment != ""
            && ((forall d :: d in data.dealers ==> d.dealerId != s.dealerId) ==>
                  e.dealerName == "Unknown" && e.city == "Unknown" && e.country == "Unknown")
            && ((forall m :: m in data.models ==> m.modelId != s.modelId) ==>
                  e.brand == "Unknown" && e.model == "Unknown" && e.segment == "Unknown")
  {
    DealerOfSpec(data.dealers, s);
    ModelOfSpec(data.models, s);
  }

  /** The rows are the selected sales rearranged newest first. */
  lemma RowsSpec(data: DashboardData, req: DrillDownRequest)
    ensures var rows := Rows(data, req);
            && SortedDesc(rows, RowDate)
            && |rows| == |DrillDownSales(data, req)|
            && multiset(Map(rows, RowSale)) == multiset(DrillDownSales(data, req))
  {
    var sel := DrillDownSales(data, req);
    var enriched := Map(sel, EnrichWith(data));
    MapSort(enriched, RowDate, RowSale);
    assert Map(enriched, RowSale) == sel;
  }

  /** Every row is its sale, enriched. */
  lemma RowsEnriched(data: DashboardData, req: DrillDownRequest)
    ensures forall e :: e in Rows(data, req) ==> e == Enrich(data, e.sale)
  {
    var enriched := Map(DrillDownSales(data, req), EnrichWith(data));
    forall e | e in Rows(data, req) ensures e == Enrich(data, e.sale) {
      assert e in multiset(enriched);
      var i :| 0 <= i < |enriched| && enriched[i] == e;
    }
  }

  /** The sort is stable: among rows of one date, the selection's order is kept. */
  lemma RowsStable(data: DashboardData, req: DrillDownRequest, t: int)
    ensures Filter(Rows(data, req), DatedAt(t)) == Filter(Map(DrillDownSales(data, req), EnrichWith(data)), DatedAt(t))
  {
    SortStable(Map(DrillDownSales(data, req), EnrichWith(data)), RowDate, t, DatedAt(t));
  }

  function DatedAt(t: int): EnrichedSale -> bool { (e: EnrichedSale) => e.sale.date == t }

  // ---------------------------------------------------------------------
  // Summary figures

  datatype Summary = Summary(totalRevenue: int, totalProfit: int, totalUnits: int, avgOrderValue: real)

  function RowRevenue(e: EnrichedSale): int { e.sale.totalPrice }
  function RowProfit(e: EnrichedSale): int { e.sale.totalProfit }
  function RowUnits(e: EnrichedSale): int { e.sale.quantity }

  /** Totals over every row (not only the displayed ones); the average
      order value is zero when there are no rows. */
  function Summarize(rows: seq<EnrichedSale>): Summary {
    var revenue := Sum(rows, RowRevenue);
    Summary(
      revenue,
      Sum(rows, RowProfit),
      Sum(rows, RowUnits),
      if |rows| > 0 then revenue as real / |rows| as real else 0.0)
  }

  /** A per-row measure that reads only the sale sums the same over the
      rows as over the selected sales. */
  lemma RowsSum(data: DashboardData, req: DrillDownRequest, h: EnrichedSale -> int, g: Sale -> int)
    requires forall s :: h(Enrich(data, s)) == g(s)
    ensures Sum(Rows(data, req), h) == Sum(DrillDownSales(data, req), g)
  {
    var sel := DrillDownSales(data, req);
    SumSort(Map(sel, EnrichWith(data)), RowDate, h);
    SumMap(sel, EnrichWith(data), h, g);
  }

  /** The totals are the sums over the selected sales, and the average
      order value is their revenue over their number. */
  lemma SummaryTotals(data: DashboardData, req: DrillDownRequest)
    ensures var sel := DrillDownSales(data, req);
            var sum := Summarize(Rows(data, req));
            && sum.totalRevenue == Sum(sel, Revenue)
            && sum.totalProfit == Sum(sel, Profit)
            && sum.totalUnits == Sum(sel, Units)
            && (sel == [] ==> sum.avgOrderValue == 0.0)
            && (sel != [] ==> sum.avgOrderValue == Sum(sel, Revenue) as real / |sel| as real)
  {
    RowsSum(data, req, RowRevenue, Revenue);
    RowsSum(data, req, RowProfit, Profit);
    RowsSum(data, req, RowUnits, Units);
    assert |Rows(data, req)| == |DrillDownSales(data, req)|;
  }

  // ---------------------------------------------------------------------
  // The table

  const TableRows: nat := 50

  /** The rows the table shows: the first fifty, in order. */
  function Displayed(rows: seq<EnrichedSale>): (shown: seq<EnrichedSale>)
    ensures |shown| == if |rows| < TableRows then |rows| else TableRows
    ensures shown == rows[..|shown|]
  {
    Take(rows, TableRows)
  }

  /** The "Showing 50 of N transactions" note: present, carrying N,
      exactly when the table hides some rows. */
  function HiddenNote(rows: seq<EnrichedSale>): (note: Option<nat>)
    ensures note.Some? <==> |Displayed(rows)| < |rows|
    ensures note.Some? ==> note.value == |rows| && |Displayed(rows)| == TableRows
  {
    if |rows| > TableRows then Some(|rows|) else None
  }
}
