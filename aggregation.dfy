/** `aggregateData` (src/lib/dataProcessing.ts:117-200): totals over the
    filtered sales, and four breakdowns built by joining each sale to its
    dealer or model with a first-match `find`. A sale whose join fails
    still counts in the totals but in no breakdown. */
module Aggregation {
  import opened DataTypes
  import opened Seqs
  import opened OrderedMaps
  import opened Joins
  import opened Filtering
  import opened Grouping

  // ---------------------------------------------------------------------
  // Accumulator values and result rows

  datatype CarTotals = CarTotals(brand: string, quantity: int)
  datatype BrandTotals = BrandTotals(profit: int, quantity: int)
  datatype CityTotals = CityTotals(country: string, revenue: int)

  datatype CountryRow = CountryRow(country: string, revenue: int, percentage: real)
  datatype CarRow = CarRow(model: string, brand: string, quantity: int)
  datatype BrandRow = BrandRow(brand: string, profit: int, quantity: int)
  datatype CityRow = CityRow(city: string, country: string, revenue: int)

  /** The trend fields the type declares are never computed, so they are absent. */
  datatype AggregatedData = AggregatedData(
    totalRevenue: int,
    totalProfit: int,
    totalUnits: int,
    revenueByCountry: seq<CountryRow>,
    topCars: seq<CarRow>,
    profitByBrand: seq<BrandRow>,
    revenueByCity: seq<CityRow>)

  // ---------------------------------------------------------------------
  // The four accumulations

  /** The "Brand Model" key of the top-cars map. */
  function CarKey(m: CarModel): string { m.brand + " " + m.name }

  function CountryStep(cur: Option<int>, s: Sale, d: Dealer): int {
    OrElse(cur, 0) + s.totalPrice
  }

  function CarStep(cur: Option<CarTotals>, s: Sale, m: CarModel): CarTotals {
    CarTotals(m.brand, OrElse(cur, CarTotals(m.brand, 0)).quantity + s.quantity)
  }

  function BrandStep(cur: Option<BrandTotals>, s: Sale, m: CarModel): BrandTotals {
    var c := OrElse(cur, BrandTotals(0, 0));
    BrandTotals(c.profit + s.totalProfit, c.quantity + s.quantity)
  }

  function CityStep(cur: Option<CityTotals>, s: Sale, d: Dealer): CityTotals {
    CityTotals(d.country, OrElse(cur, CityTotals(d.country, 0)).revenue + s.totalPrice)
  }

  function RevenueByCountryMap(sales: seq<Sale>, dealers: seq<Dealer>): seq<Entry<int>> {
    GroupBy(sales, DealerJoin(dealers), CountryKey, CountryStep)
  }

  function QuantityByModel(sales: seq<Sale>, models: seq<CarModel>): seq<Entry<CarTotals>> {
    GroupBy(sales, ModelJoin(models), CarKey, CarStep)
  }

  function BrandMetrics(sales: seq<Sale>, models: seq<CarModel>): seq<Entry<BrandTotals>> {
    GroupBy(sales, ModelJoin(models), BrandKey, BrandStep)
  }

  function RevenueByCityMap(sales: seq<Sale>, dealers: seq<Dealer>): seq<Entry<CityTotals>> {
    GroupBy(sales, DealerJoin(dealers), CityKey, CityStep)
  }

  /** One more sale in the country accumulation. */
  lemma CountryMapSnoc(sales: seq<Sale>, i: nat, dealers: seq<Dealer>)
    requires i < |sales|
    ensures RevenueByCountryMap(sales[..i + 1], dealers) ==
              var acc := RevenueByCountryMap(sales[..i], dealers);
              var dealer := DealerOf(dealers, sales[i]);
              if dealer.Some? then Put(acc, dealer.value.country, OrElse(Get(acc, dealer.value.country), 0) + sales[i].totalPrice)
              else acc
  {
    assert sales[..i + 1] == sales[..i] + [sales[i]];
    GroupBySnoc(sales[..i], sales[i], DealerJoin(dealers), CountryKey, CountryStep);
    var dealer := DealerOf(dealers, sales[i]);
    assert DealerJoin(dealers)(sales[i]) == dealer;
    if dealer.Some? {
      var acc := RevenueByCountryMap(sales[..i], dealers);
      assert CountryKey(dealer.value) == dealer.value.country;
      assert CountryStep(Get(acc, dealer.value.country), sales[i], dealer.value) ==
             OrElse(Get(acc, dealer.value.country), 0) + sales[i].totalPrice;
    }
  }

  /** One more sale in the per-model accumulation. */
  lemma CarMapSnoc(sales: seq<Sale>, i: nat, models: seq<CarModel>)
    requires i < |sales|
    ensures QuantityByModel(sales[..i + 1], models) ==
              var acc := QuantityByModel(sales[..i], models);
              var model := ModelOf(models, sales[i]);
              if model.Some? then
                var key := model.value.brand + " " + model.value.name;
                Put(acc, key, CarTotals(model.value.brand,
                                        OrElse(Get(acc, key), CarTotals(model.value.brand, 0)).quantity + sales[i].quantity))
              else acc
  {
    assert sales[..i + 1] == sales[..i] + [sales[i]];
    GroupBySnoc(sales[..i], sales[i], ModelJoin(models), CarKey, CarStep);
    var model := ModelOf(models, sales[i]);
    assert ModelJoin(models)(sales[i]) == model;
    if model.Some? {
      var acc := QuantityByModel(sales[..i], models);
      var key := model.value.brand + " " + model.value.name;
      assert CarKey(model.value) == key;
      assert CarStep(Get(acc, key), sales[i], model.value) ==
             CarTotals(model.value.brand, OrElse(Get(acc, key), CarTotals(model.value.brand, 0)).quantity + sales[i].quantity);
    }
  }

  /** One more sale in the per-brand accumulation. */
  lemma BrandMapSnoc(sales: seq<Sale>, i: nat, models: seq<CarModel>)
    requires i < |sales|
    ensures BrandMetrics(sales[..i + 1], models) ==
              var acc := BrandMetrics(sales[..i], models);
              var model := ModelOf(models, sales[i]);
              if model.Some? then
                var cur := OrElse(Get(acc, model.value.brand), BrandTotals(0, 0));
                Put(acc, model.value.brand, BrandTotals(cur.profit + sales[i].totalProfit, cur.quantity + sales[i].quantity))
              else acc
  {
    assert sales[..i + 1] == sales[..i] + [sales[i]];
    GroupBySnoc(sales[..i], sales[i], ModelJoin(models), BrandKey, BrandStep);
    var model := ModelOf(models, sales[i]);
    assert ModelJoin(models)(sales[i]) == model;
    if model.Some? {
      var acc := BrandMetrics(sales[..i], models);
      var cur := OrElse(Get(acc, model.value.brand), BrandTotals(0, 0));
      assert BrandKey(model.value) == model.value.brand;
      assert BrandStep(Get(acc, model.value.brand), sales[i], model.value) ==
             BrandTotals(cur.profit + sales[i].totalProfit, cur.quantity + sales[i].quantity);
    }
  }

  /** One more sale in the per-city accumulation. */
  lemma CityMapSnoc(sales: seq<Sale>, i: nat, dealers: seq<Dealer>)
    requires i < |sales|
    ensures RevenueByCityMap(sales[..i + 1], dealers) ==
              var acc := RevenueByCityMap(sales[..i], dealers);
              var dealer := DealerOf(dealers, sales[i]);
              if dealer.Some? then
                var cur := OrElse(Get(acc, dealer.value.city), CityTotals(dealer.value.country, 0));
                Put(acc, dealer.value.city, CityTotals(dealer.value.country, cur.revenue + sales[i].totalPrice))
              else acc
  {
    assert sales[..i + 1] == sales[..i] + [sales[i]];
    GroupBySnoc(sales[..i], sales[i], DealerJoin(dealers), CityKey, CityStep);
    var dealer := DealerOf(dealers, sales[i]);
    assert DealerJoin(dealers)(sales[i]) == dealer;
    if dealer.Some? {
      var acc := RevenueByCityMap(sales[..i], dealers);
      var cur := OrElse(Get(acc, dealer.value.city), CityTotals(dealer.value.country, 0));
      assert CityKey(dealer.value) == dealer.value.city;
      assert CityStep(Get(acc, dealer.value.city), sales[i], dealer.value) ==
             CityTotals(dealer.value.country, cur.revenue + sales[i].totalPrice);
    }
  }

  /** The `filteredSales.forEach` that fills `revenueByCountryMap`. */
  method TallyRevenueByCountry(sales: seq<Sale>, dealers: seq<Dealer>) returns (acc: seq<Entry<int>>)
    ensures acc == RevenueByCountryMap(sales, dealers)
  {
    acc := [];
    for i := 0 to |sales|
      invariant acc == RevenueByCountryMap(sales[..i], dealers)
    {
      var sale := sales[i];
      var dealer := DealerOf(dealers, sale);
      if dealer.Some? {
        var current := OrElse(Get(acc, dealer.value.country), 0);
        acc := Put(acc, dealer.value.country, current + sale.totalPrice);
      }
      assert acc == RevenueByCountryMap(sales[..i + 1], dealers) by {
        CountryMapSnoc(sales, i, dealers);
      }
    }
    assert sales[..|sales|] == sales;
  }

  /** The `filteredSales.forEach` that fills `quantityByModel`. */
  method TallyQuantityByModel(sales: seq<Sale>, models: seq<CarModel>) returns (acc: seq<Entry<CarTotals>>)
    ensures acc == QuantityByModel(sales, models)
  {
    acc := [];
    for i := 0 to |sales|
      invariant acc == QuantityByModel(sales[..i], models)
    {
      var sale := sales[i];
      var model := ModelOf(models, sale);
      if model.Some? {
        var key := model.value.brand + " " + model.value.name;
        var current := OrElse(Get(acc, key), CarTotals(model.value.brand, 0));
        acc := Put(acc, key, CarTotals(model.value.brand, current.quantity + sale.quantity));
      }
      assert acc == QuantityByModel(sales[..i + 1], models) by {
        CarMapSnoc(sales, i, models);
      }
    }
    assert sales[..|sales|] == sales;
  }

  /** The `filteredSales.forEach` that fills `brandMetrics`. */
  method TallyBrandMetrics(sales: seq<Sale>, models: seq<CarModel>) returns (acc: seq<Entry<BrandTotals>>)
    ensures acc == BrandMetrics(sales, models)
  {
    acc := [];
    for i := 0 to |sales|
      invariant acc == BrandMetrics(sales[..i], models)
    {
      var sale := sales[i];
      var model := ModelOf(models, sale);
      if model.Some? {
        var current := OrElse(Get(acc, model.value.brand), BrandTotals(0, 0));
        acc := Put(acc, model.value.brand,
                   BrandTotals(current.profit + sale.totalProfit, current.quantity + sale.quantity));
      }
      assert acc == BrandMetrics(sales[..i + 1], models) by {
        BrandMapSnoc(sales, i, models);
      }
    }
    assert sales[..|sales|] == sales;
  }

  /** The `filteredSales.forEach` that fills `revenueByCityMap`. */
  method TallyRevenueByCity(sales: seq<Sale>, dealers: seq<Dealer>) returns (acc: seq<Entry<CityTotals>>)
    ensures acc == RevenueByCityMap(sales, dealers)
  {
    acc := [];
    for i := 0 to |sales|
      invariant acc == RevenueByCityMap(sales[..i], dealers)
    {
      var sale := sales[i];
      var dealer := DealerOf(dealers, sale);
      if dealer.Some? {
        var current := OrElse(Get(acc, dealer.value.city), CityTotals(dealer.value.country, 0));
        acc := Put(acc, dealer.value.city,
                   CityTotals(dealer.value.country, current.revenue + sale.totalPrice));
      }
      assert acc == RevenueByCityMap(sales[..i + 1], dealers) by {
        CityMapSnoc(sales, i, dealers);
      }
    }
    assert sales[..|sales|] == sales;
  }

  // ---------------------------------------------------------------------
  // From accumulators to rows

  /** `totalRevenue > 0 ? (revenue / totalRevenue) * 100 : 0` */
  function Percentage(revenue: int, total: int): real {
    if total > 0 then (revenue as real / total as real) * 100.0 else 0.0
  }

  function ToCountryRow(total: int): Entry<int> -> CountryRow {
    (e: Entry<int>) => CountryRow(e.key, e.val, Percentage(e.val, total))
  }
  function ToCarRow(e: Entry<CarTotals>): CarRow { CarRow(e.key, e.val.brand, e.val.quantity) }
  function ToBrandRow(e: Entry<BrandTotals>): BrandRow { BrandRow(e.key, e.val.profit, e.val.quantity) }
  function ToCityRow(e: Entry<CityTotals>): CityRow { CityRow(e.key, e.val.country, e.val.revenue) }

  function CountryOfRow(r: CountryRow): string { r.country }
  function RevenueOfCountryRow(r: CountryRow): int { r.revenue }
  function QuantityOfCarRow(r: CarRow): int { r.quantity }
  function ModelOfCarRow(r: CarRow): string { r.model }
  function ProfitOfBrandRow(r: BrandRow): int { r.profit }
  function UnitsOfBrandRow(r: BrandRow): int { r.quantity }
  function BrandOfBrandRow(r: BrandRow): string { r.brand }
  function RevenueOfCityRow(r: CityRow): int { r.revenue }
  function CityOfCityRow(r: CityRow): string { r.city }

  /** What aggregateData returns for (data, filters). */
  function Aggregate(data: DashboardData, f: Filters): AggregatedData {
    var sales := Selected(data, f);
    var totalRevenue := Sum(sales, Revenue);
    AggregatedData(
      totalRevenue,
      Sum(sales, Profit),
      Sum(sales, Units),
      Map(RevenueByCountryMap(sales, data.dealers), ToCountryRow(totalRevenue)),
      Take(SortByDesc(Map(QuantityByModel(sales, data.models), ToCarRow), QuantityOfCarRow), 3),
      SortByDesc(Map(BrandMetrics(sales, data.models), ToBrandRow), ProfitOfBrandRow),
      SortByDesc(Map(RevenueByCityMap(sales, data.dealers), ToCityRow), RevenueOfCityRow))
  }

  method AggregateData(data: DashboardData, f: Filters) returns (r: AggregatedData)
    ensures r == Aggregate(data, f)
  {
    var filteredSales := ApplyFilters(data, f);

    var totalRevenue := Sum(filteredSales, Revenue);
    var totalProfit := Sum(filteredSales, Profit);
    var totalUnits := Sum(filteredSales, Units);

    var revenueByCountryMap := TallyRevenueByCountry(filteredSales, data.dealers);
    var revenueByCountry := Map(revenueByCountryMap, ToCountryRow(totalRevenue));

    var quantityByModel := TallyQuantityByModel(filteredSales, data.models);
    var topCars := Take(SortByDesc(Map(quantityByModel, ToCarRow), QuantityOfCarRow), 3);

    var brandMetrics := TallyBrandMetrics(filteredSales, data.models);
    var profitByBrand := SortByDesc(Map(brandMetrics, ToBrandRow), ProfitOfBrandRow);

    var revenueByCityMap := TallyRevenueByCity(filteredSales, data.dealers);
    var revenueByCity := SortByDesc(Map(revenueByCityMap, ToCityRow), RevenueOfCityRow);

    r := AggregatedData(totalRevenue, totalProfit, totalUnits,
                        revenueByCountry, topCars, profitByBrand, revenueByCity);
  }
}
