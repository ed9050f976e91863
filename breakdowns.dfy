/** What the four breakdowns of `aggregateData`
    (src/lib/dataProcessing.ts:125-185) hold: each key once, in the order
    the source produces them, with values that are sums over exactly the
    filtered sales whose `find` join lands on that key. */
module Breakdowns {
  import opened DataTypes
  import opened Seqs
  import opened OrderedMaps
  import opened Joins
  import opened Filtering
  import opened Grouping
  import opened Aggregation

  // ---------------------------------------------------------------------
  // The sales that make up one group

  /** The sales whose dealer, as `find` resolves it, is in `country`. */
  function CountrySales(sales: seq<Sale>, dealers: seq<Dealer>, country: string): seq<Sale> {
    Filter(sales, JoinsTo(DealerJoin(dealers), CountryKey, country))
  }

  /** The sales whose model, as `find` resolves it, has the "Brand Model" key `key`. */
  function CarSales(sales: seq<Sale>, models: seq<CarModel>, key: string): seq<Sale> {
    Filter(sales, JoinsTo(ModelJoin(models), CarKey, key))
  }

  /** The sales whose model, as `find` resolves it, is of `brand`. */
  function BrandSales(sales: seq<Sale>, models: seq<CarModel>, brand: string): seq<Sale> {
    Filter(sales, JoinsTo(ModelJoin(models), BrandKey, brand))
  }

  /** The sales whose dealer, as `find` resolves it, is in `city`. */
  function CitySales(sales: seq<Sale>, dealers: seq<Dealer>, city: string): seq<Sale> {
    Filter(sales, JoinsTo(DealerJoin(dealers), CityKey, city))
  }

  function Last(ys: seq<Sale>): Sale
    requires ys != []
  {
    ys[|ys| - 1]
  }

  // ---------------------------------------------------------------------
  // One group's value

  lemma {:induction false} CountryFold(ys: seq<Sale>, dealers: seq<Dealer>)
    requires forall y :: y in ys ==> DealerOf(dealers, y).Some?
    ensures ys != [] ==> Fold(ys, DealerJoin(dealers), CountryStep) == Some(Sum(ys, Revenue))
  {
    if ys != [] {
      var n := |ys| - 1;
      assert ys[n] in ys;
      assert DealerJoin(dealers)(ys[n]) == DealerOf(dealers, ys[n]);
      if n > 0 {
        assert forall y :: y in ys[..n] ==> y in ys;
        CountryFold(ys[..n], dealers);
      }
    }
  }

  /** A car group's brand is the brand of the last sale's model. */
  lemma {:induction false} CarFold(ys: seq<Sale>, models: seq<CarModel>)
    requires forall y :: y in ys ==> ModelOf(models, y).Some?
    ensures ys != [] ==>
              Fold(ys, ModelJoin(models), CarStep) ==
                Some(CarTotals(ModelOf(models, Last(ys)).value.brand, Sum(ys, Units)))
  {
    if ys != [] {
      var n := |ys| - 1;
      assert ys[n] in ys;
      assert ModelJoin(models)(ys[n]) == ModelOf(models, ys[n]);
      if n > 0 {
        assert forall y :: y in ys[..n] ==> y in ys;
        CarFold(ys[..n], models);
      }
    }
  }

  lemma {:induction false} BrandFold(ys: seq<Sale>, models: seq<CarModel>)
    requires forall y :: y in ys ==> ModelOf(models, y).Some?
    ensures ys != [] ==>
              Fold(ys, ModelJoin(models), BrandStep) == Some(BrandTotals(Sum(ys, Profit), Sum(ys, Units)))
  {
    if ys != [] {
      var n := |ys| - 1;
      assert ys[n] in ys;
      assert ModelJoin(models)(ys[n]) == ModelOf(models, ys[n]);
      if n > 0 {
        assert forall y :: y in ys[..n] ==> y in ys;
        BrandFold(ys[..n], models);
      }
    }
  }

  /** A city group's country is the country of the last sale's dealer. */
  lemma {:induction false} CityFold(ys: seq<Sale>, dealers: seq<Dealer>)
    requires forall y :: y in ys ==> DealerOf(dealers, y).Some?
    ensures ys != [] ==>
              Fold(ys, DealerJoin(dealers), CityStep) ==
                Some(CityTotals(DealerOf(dealers, Last(ys)).value.country, Sum(ys, Revenue)))
  {
    if ys != [] {
      var n := |ys| - 1;
      assert ys[n] in ys;
      assert DealerJoin(dealers)(ys[n]) == DealerOf(dealers, ys[n]);
      if n > 0 {
        assert forall y :: y in ys[..n] ==> y in ys;
        CityFold(ys[..n], dealers);
      }
    }
  }

  // ---------------------------------------------------------------------
  // Every group of each accumulator map

  /** `revenueByCountryMap`: entry `i` holds the revenue
      of its own, non-empty, set of sales. */
  lemma CountryGroup(sales: seq<Sale>, dealers: seq<Dealer>, i: nat)
    requires i < |RevenueByCountryMap(sales, dealers)|
    ensures var e := RevenueByCountryMap(sales, dealers)[i];
            && CountrySales(sales, dealers, e.key) != []
            && e.val == Sum(CountrySales(sales, dealers, e.key), Revenue)
  {
    var e := RevenueByCountryMap(sales, dealers)[i];
    GroupAt(sales, DealerJoin(dealers), CountryKey, CountryStep, i);
    var ys := CountrySales(sales, dealers, e.key);
    forall y | y in ys ensures DealerOf(dealers, y).Some? {
      assert JoinsTo(DealerJoin(dealers), CountryKey, e.key)(y);
    }
    CountryFold(ys, dealers);
  }

  /** `quantityByModel`: entry `i` holds the units
      of its own sales and the brand of its last sale's model. */
  lemma CarGroup(sales: seq<Sale>, models: seq<CarModel>, i: nat)
    requires i < |QuantityByModel(sales, models)|
    ensures var e := QuantityByModel(sales, models)[i];
            var ys := CarSales(sales, models, e.key);
            && ys != []
            && e.val.quantity == Sum(ys, Units)
            && ModelOf(models, Last(ys)).Some?
            && e.val.brand == ModelOf(models, Last(ys)).value.brand
  {
    var e := QuantityByModel(sales, models)[i];
    GroupAt(sales, ModelJoin(models), CarKey, CarStep, i);
    var ys := CarSales(sales, models, e.key);
    forall y | y in ys ensures ModelOf(models, y).Some? {
      assert JoinsTo(ModelJoin(models), CarKey, e.key)(y);
    }
    CarFold(ys, models);
  }

  /** `brandMetrics`: entry `i` holds the profit and units of
      its own sales. */
  lemma BrandGroup(sales: seq<Sale>, models: seq<CarModel>, i: nat)
    requires i < |BrandMetrics(sales, models)|
    ensures var e := BrandMetrics(sales, models)[i];
            var ys := BrandSales(sales, models, e.key);
            && ys != []
            && e.val == BrandTotals(Sum(ys, Profit), Sum(ys, Units))
  {
    var e := BrandMetrics(sales, models)[i];
    GroupAt(sales, ModelJoin(models), BrandKey, BrandStep, i);
    var ys := BrandSales(sales, models, e.key);
    forall y | y in ys ensures ModelOf(models, y).Some? {
      assert JoinsTo(ModelJoin(models), BrandKey, e.key)(y);
    }
    BrandFold(ys, models);
  }

  /** `revenueByCityMap`: entry `i` holds the revenue of its
      own sales and the country of its LAST sale's dealer. */
  lemma CityGroup(sales: seq<Sale>, dealers: seq<Dealer>, i: nat)
    requires i < |RevenueByCityMap(sales, dealers)|
    ensures var e := RevenueByCityMap(sales, dealers)[i];
            var ys := CitySales(sales, dealers, e.key);
            && ys != []
            && e.val.revenue == Sum(ys, Revenue)
            && DealerOf(dealers, Last(ys)).Some?
            && e.val.country == DealerOf(dealers, Last(ys)).value.country
  {
    var e := RevenueByCityMap(sales, dealers)[i];
    GroupAt(sales, DealerJoin(dealers), CityKey, CityStep, i);
    var ys := CitySales(sales, dealers, e.key);
    forall y | y in ys ensures DealerOf(dealers, y).Some? {
      assert JoinsTo(DealerJoin(dealers), CityKey, e.key)(y);
    }
    CityFold(ys, dealers);
  }

  // ---------------------------------------------------------------------
  // From accumulator entries to result rows

  /** Rows built from entries with distinct keys, each row carrying its
      entry's key, have distinct keys. */
  lemma RowsDistinct<V, R>(m: seq<Entry<V>>, toRow: Entry<V> -> R, rowKey: R -> string)
    requires Distinct(Keys(m))
    requires forall e :: rowKey(toRow(e)) == e.key
    ensures DistinctBy(Map(m, toRow), rowKey)
  {
    var rows := Map(m, toRow);
    var ks := Keys(m);
    forall a, b | 0 <= a < b < |rows| ensures rowKey(rows[a]) != rowKey(rows[b]) {
      assert rowKey(rows[a]) == ks[a] && rowKey(rows[b]) == ks[b];
    }
  }

  /** A row of a sorted breakdown is the row of some accumulator entry. */
  lemma SortedRowFrom<V, R>(m: seq<Entry<V>>, toRow: Entry<V> -> R, key: R -> int, row: R)
    requires row in SortByDesc(Map(m, toRow), key)
    ensures row in Map(m, toRow)
  {
    var rows := Map(m, toRow);
    assert row in multiset(SortByDesc(rows, key));
  }

  // ---------------------------------------------------------------------
  // revenueByCountry

  /** `totalRevenue > 0 ? (revenue / totalRevenue) * 100 : 0`: zero unless
      the total is positive, and otherwise the share that, scaled back by the
      total, gives the revenue times one hundred. */
  lemma PercentageSpec(revenue: int, total: int)
    ensures total <= 0 ==> Percentage(revenue, total) == 0.0
    ensures total > 0 ==> Percentage(revenue, total) * total as real == revenue as real * 100.0
  {
    if total > 0 {
      var t := total as real;
      assert (revenue as real / t) * t == revenue as real;
    }
  }

  /** Countries appear once each, in the order in which they first occur
      among the filtered sales whose dealer resolves. */
  lemma CountryOrder(data: DashboardData, f: Filters)
    ensures var sel := Selected(data, f);
            Map(Aggregate(data, f).revenueByCountry, CountryOfRow) ==
              Dedup(Map(Filter(sel, Joined(DealerJoin(data.dealers))), KeyOfSale(DealerJoin(data.dealers), CountryKey)))
  {
    var sel := Selected(data, f);
    var m := RevenueByCountryMap(sel, data.dealers);
    var rows := Aggregate(data, f).revenueByCountry;
    GroupKeys(sel, DealerJoin(data.dealers), CountryKey, CountryStep);
    assert Map(rows, CountryOfRow) == Keys(m);
  }

  /** Each country row holds the revenue of the filtered sales whose dealer
      is in that country, and its share of the total revenue. */
  lemma CountryRowValue(data: DashboardData, f: Filters, i: nat)
    requires i < |Aggregate(data, f).revenueByCountry|
    ensures var r := Aggregate(data, f);
            var row := r.revenueByCountry[i];
            var ys := CountrySales(Selected(data, f), data.dealers, row.country);
            && ys != []
            && row.revenue == Sum(ys, Revenue)
            && row.percentage == Percentage(row.revenue, r.totalRevenue)
  {
    CountryGroup(Selected(data, f), data.dealers, i);
  }

  /** A country has a row exactly when some filtered sale's dealer, as
      `find` resolves it, is in that country. */
  lemma CountryRowExists(data: DashboardData, f: Filters, c: string)
    ensures var sel := Selected(data, f);
            c in Map(Aggregate(data, f).revenueByCountry, CountryOfRow) <==>
              exists s :: s in sel && DealerOf(data.dealers, s).Some? && DealerOf(data.dealers, s).value.country == c
  {
    var sel := Selected(data, f);
    var m := RevenueByCountryMap(sel, data.dealers);
    var join := DealerJoin(data.dealers);
    GroupHasKey(sel, join, CountryKey, CountryStep, c);
    assert Map(Aggregate(data, f).revenueByCountry, CountryOfRow) == Keys(m);
    if exists s :: s in sel && DealerOf(data.dealers, s).Some? && DealerOf(data.dealers, s).value.country == c {
      var s :| s in sel && DealerOf(data.dealers, s).Some? && DealerOf(data.dealers, s).value.country == c;
      assert join(s) == DealerOf(data.dealers, s);
    }
    if c in Keys(m) {
      var s :| s in sel && join(s).Some? && CountryKey(join(s).value) == c;
      assert join(s) == DealerOf(data.dealers, s);
    }
  }

  function IntVal(v: int): int { v }
  function CityRevenue(t: CityTotals): int { t.revenue }
  function BrandProfit(t: BrandTotals): int { t.profit }
  function BrandUnits(t: BrandTotals): int { t.quantity }

  /** A measure of the rows, sorted or not, adds up like the group values
      it reads. */
  lemma SortedRowsSum<J, V, R>(sales: seq<Sale>, join: Sale -> Option<J>, keyOf: J -> string,
                               step: (Option<V>, Sale, J) -> V, g: V -> int, h: Sale -> int,
                               toRow: Entry<V> -> R, key: R -> int, measure: R -> int)
    requires forall o, s, j :: g(step(o, s, j)) == Weight(o, g) + h(s)
    requires forall e :: measure(toRow(e)) == g(e.val)
    ensures Sum(SortByDesc(Map(GroupBy(sales, join, keyOf, step), toRow), key), measure) ==
              Sum(Filter(sales, Joined(join)), h)
  {
    var m := GroupBy(sales, join, keyOf, step);
    SumSort(Map(m, toRow), key, measure);
    SumMap(m, toRow, measure, Measure(g));
    GroupSum(sales, join, keyOf, step, g, h);
  }

  /** The country revenues add up to the revenue of the filtered sales whose
      dealer resolves; when every filtered sale's dealer resolves, that is
      the total revenue. */
  lemma CountryRevenueTotal(data: DashboardData, f: Filters)
    ensures var r := Aggregate(data, f);
            var sel := Selected(data, f);
            && Sum(r.revenueByCountry, RevenueOfCountryRow) == Sum(Filter(sel, Joined(DealerJoin(data.dealers))), Revenue)
            && ((forall s :: s in sel ==> DealerOf(data.dealers, s).Some?) ==>
                  Sum(r.revenueByCountry, RevenueOfCountryRow) == r.totalRevenue)
  {
    var r := Aggregate(data, f);
    var sel := Selected(data, f);
    var m := RevenueByCountryMap(sel, data.dealers);
    SumMap(m, ToCountryRow(r.totalRevenue), RevenueOfCountryRow, Measure(IntVal));
    GroupSum(sel, DealerJoin(data.dealers), CountryKey, CountryStep, IntVal, Revenue);
    if forall s :: s in sel ==> DealerOf(data.dealers, s).Some? {
      FilterAll(sel, Joined(DealerJoin(data.dealers)));
    }
  }

  // ---------------------------------------------------------------------
  // topCars

  /** At most three cars, by non-increasing quantity. */
  lemma TopCarsShape(data: DashboardData, f: Filters)
    ensures var r := Aggregate(data, f);
            var groups := QuantityByModel(Selected(data, f), data.models);
            && |r.topCars| == (if |groups| < 3 then |groups| else 3)
            && SortedDesc(r.topCars, QuantityOfCarRow)
  {
    var m := QuantityByModel(Selected(data, f), data.models);
    var sorted := SortByDesc(Map(m, ToCarRow), QuantityOfCarRow);
    var top := Aggregate(data, f).topCars;
    assert top == sorted[..|top|];
    forall i, j | 0 <= i < j < |top| ensures top[i].quantity >= top[j].quantity {
      assert top[i] == sorted[i] && top[j] == sorted[j];
    }
  }

  /** No "Brand Model" appears twice among the top cars. */
  lemma TopCarsDistinct(data: DashboardData, f: Filters)
    ensures DistinctBy(Aggregate(data, f).topCars, ModelOfCarRow)
  {
    var sel := Selected(data, f);
    var m := QuantityByModel(sel, data.models);
    var all := Map(m, ToCarRow);
    var sorted := SortByDesc(all, QuantityOfCarRow);
    var top := Aggregate(data, f).topCars;
    GroupDistinct(sel, ModelJoin(data.models), CarKey, CarStep);
    assert forall e :: ModelOfCarRow(ToCarRow(e)) == e.key;
    RowsDistinct(m, ToCarRow, ModelOfCarRow);
    SortDistinctBy(all, QuantityOfCarRow, ModelOfCarRow);
    forall i, j | 0 <= i < j < |top| ensures top[i].model != top[j].model {
      assert top[i] == sorted[i] && top[j] == sorted[j];
    }
  }

  /** The shown cars are groups, and no group left out sold more units
      than a shown one. */
  lemma TopCarsAreTop(data: DashboardData, f: Filters)
    ensures var r := Aggregate(data, f);
            var all := Map(QuantityByModel(Selected(data, f), data.models), ToCarRow);
            && (forall row :: row in r.topCars ==> row in all)
            && (forall row, other :: row in r.topCars && other in all && other !in r.topCars ==>
                  other.quantity <= row.quantity)
  {
    var m := QuantityByModel(Selected(data, f), data.models);
    var all := Map(m, ToCarRow);
    var sorted := SortByDesc(all, QuantityOfCarRow);
    var top := Aggregate(data, f).topCars;
    assert top == sorted[..|top|];
    forall row | row in top ensures row in all {
      SortedRowFrom(m, ToCarRow, QuantityOfCarRow, row);
    }
    SortedPrefixIsTop(sorted, |top|, QuantityOfCarRow);
    forall other | other in all ensures other in sorted {
      assert other in multiset(sorted);
    }
  }

  /** Each shown car holds the units of the filtered sales of its
      "Brand Model" group and the brand of that group's last sale's model. */
  lemma TopCarValue(data: DashboardData, f: Filters, i: nat)
    requires i < |Aggregate(data, f).topCars|
    ensures var row := Aggregate(data, f).topCars[i];
            var ys := CarSales(Selected(data, f), data.models, row.model);
            && ys != []
            && row.quantity == Sum(ys, Units)
            && ModelOf(data.models, Last(ys)).Some?
            && row.brand == ModelOf(data.models, Last(ys)).value.brand
  {
    var sel := Selected(data, f);
    var m := QuantityByModel(sel, data.models);
    var row := Aggregate(data, f).topCars[i];
    TopCarsAreTop(data, f);
    assert row in Map(m, ToCarRow);
    var j :| 0 <= j < |m| && Map(m, ToCarRow)[j] == row;
    CarGroup(sel, data.models, j);
  }

  // ---------------------------------------------------------------------
  // profitByBrand

  function ProfitIs(k: int): BrandRow -> bool { (r: BrandRow) => r.profit == k }

  /** Every brand group once, by non-increasing profit. */
  lemma ProfitByBrandSpec(data: DashboardData, f: Filters)
    ensures var r := Aggregate(data, f);
            var all := Map(BrandMetrics(Selected(data, f), data.models), ToBrandRow);
            && multiset(r.profitByBrand) == multiset(all)
            && SortedDesc(r.profitByBrand, ProfitOfBrandRow)
            && DistinctBy(r.profitByBrand, BrandOfBrandRow)
  {
    var sel := Selected(data, f);
    var m := BrandMetrics(sel, data.models);
    GroupDistinct(sel, ModelJoin(data.models), BrandKey, BrandStep);
    assert forall e :: BrandOfBrandRow(ToBrandRow(e)) == e.key;
    RowsDistinct(m, ToBrandRow, BrandOfBrandRow);
    SortDistinctBy(Map(m, ToBrandRow), ProfitOfBrandRow, BrandOfBrandRow);
  }

  /** Brands with equal profit keep the order in which the brands first
      occur among the filtered sales whose model resolves. */
  lemma ProfitTiesKeepOrder(data: DashboardData, f: Filters, k: int)
    ensures var sel := Selected(data, f);
            var all := Map(BrandMetrics(sel, data.models), ToBrandRow);
            && Filter(Aggregate(data, f).profitByBrand, ProfitIs(k)) == Filter(all, ProfitIs(k))
            && Map(all, BrandOfBrandRow) ==
                 Dedup(Map(Filter(sel, Joined(ModelJoin(data.models))), KeyOfSale(ModelJoin(data.models), BrandKey)))
  {
    var sel := Selected(data, f);
    var m := BrandMetrics(sel, data.models);
    SortStable(Map(m, ToBrandRow), ProfitOfBrandRow, k, ProfitIs(k));
    GroupKeys(sel, ModelJoin(data.models), BrandKey, BrandStep);
    assert Map(Map(m, ToBrandRow), BrandOfBrandRow) == Keys(m);
  }

  /** Each brand row holds the profit and units of the filtered sales whose
      model is of that brand. */
  lemma BrandRowValue(data: DashboardData, f: Filters, i: nat)
    requires i < |Aggregate(data, f).profitByBrand|
    ensures var row := Aggregate(data, f).profitByBrand[i];
            var ys := BrandSales(Selected(data, f), data.models, row.brand);
            && ys != []
            && row.profit == Sum(ys, Profit)
            && row.quantity == Sum(ys, Units)
  {
    var sel := Selected(data, f);
    var m := BrandMetrics(sel, data.models);
    var row := Aggregate(data, f).profitByBrand[i];
    SortedRowFrom(m, ToBrandRow, ProfitOfBrandRow, row);
    var j :| 0 <= j < |m| && Map(m, ToBrandRow)[j] == row;
    BrandGroup(sel, data.models, j);
  }

  /** The brand profits and units add up to the profit and units of the
      filtered sales whose model resolves; when every filtered sale's model
      resolves, those are the totals. */
  lemma BrandTotalsAddUp(data: DashboardData, f: Filters)
    ensures var r := Aggregate(data, f);
            var kept := Filter(Selected(data, f), Joined(ModelJoin(data.models)));
            && Sum(r.profitByBrand, ProfitOfBrandRow) == Sum(kept, Profit)
            && Sum(r.profitByBrand, UnitsOfBrandRow) == Sum(kept, Units)
            && ((forall s :: s in Selected(data, f) ==> ModelOf(data.models, s).Some?) ==>
                  Sum(r.profitByBrand, ProfitOfBrandRow) == r.totalProfit
                  && Sum(r.profitByBrand, UnitsOfBrandRow) == r.totalUnits)
  {
    var sel := Selected(data, f);
    var join := ModelJoin(data.models);
    SortedRowsSum(sel, join, BrandKey, BrandStep, BrandProfit, Profit, ToBrandRow, ProfitOfBrandRow, ProfitOfBrandRow);
    SortedRowsSum(sel, join, BrandKey, BrandStep, BrandUnits, Units, ToBrandRow, ProfitOfBrandRow, UnitsOfBrandRow);
    if forall s :: s in sel ==> ModelOf(data.models, s).Some? {
      FilterAll(sel, Joined(ModelJoin(data.models)));
    }
  }

  // ---------------------------------------------------------------------
  // revenueByCity

  /** Every city group once, by non-increasing revenue. */
  lemma RevenueByCitySpec(data: DashboardData, f: Filters)
    ensures var r := Aggregate(data, f);
            var all := Map(RevenueByCityMap(Selected(data, f), data.dealers), ToCityRow);
            && multiset(r.revenueByCity) == multiset(all)
            && SortedDesc(r.revenueByCity, RevenueOfCityRow)
            && DistinctBy(r.revenueByCity, CityOfCityRow)
  {
    var sel := Selected(data, f);
    var m := RevenueByCityMap(sel, data.dealers);
    GroupDistinct(sel, DealerJoin(data.dealers), CityKey, CityStep);
    assert forall e :: CityOfCityRow(ToCityRow(e)) == e.key;
    RowsDistinct(m, ToCityRow, CityOfCityRow);
    SortDistinctBy(Map(m, ToCityRow), RevenueOfCityRow, CityOfCityRow);
  }

  /** Each city row holds the revenue of the filtered sales whose dealer is
      in that city, and the country of the dealer of the LAST such sale. */
  lemma CityRowValue(data: DashboardData, f: Filters, i: nat)
    requires i < |Aggregate(data, f).revenueByCity|
    ensures var row := Aggregate(data, f).revenueByCity[i];
            var ys := CitySales(Selected(data, f), data.dealers, row.city);
            && ys != []
            && row.revenue == Sum(ys, Revenue)
            && DealerOf(data.dealers, Last(ys)).Some?
            && row.country == DealerOf(data.dealers, Last(ys)).value.country
  {
    var sel := Selected(data, f);
    var m := RevenueByCityMap(sel, data.dealers);
    var row := Aggregate(data, f).revenueByCity[i];
    SortedRowFrom(m, ToCityRow, RevenueOfCityRow, row);
    var j :| 0 <= j < |m| && Map(m, ToCityRow)[j] == row;
    CityGroup(sel, data.dealers, j);
  }

  /** The city revenues add up to the revenue of the filtered sales whose
      dealer resolves; when every filtered sale's dealer resolves, that is
      the total revenue. */
  lemma CityRevenueTotal(data: DashboardData, f: Filters)
    ensures var r := Aggregate(data, f);
            var sel := Selected(data, f);
            && Sum(r.revenueByCity, RevenueOfCityRow) == Sum(Filter(sel, Joined(DealerJoin(data.dealers))), Revenue)
            && ((forall s :: s in sel ==> DealerOf(data.dealers, s).Some?) ==>
                  Sum(r.revenueByCity, RevenueOfCityRow) == r.totalRevenue)
  {
    var sel := Selected(data, f);
    SortedRowsSum(sel, DealerJoin(data.dealers), CityKey, CityStep, CityRevenue, Revenue,
                  ToCityRow, RevenueOfCityRow, RevenueOfCityRow);
    if forall s :: s in sel ==> DealerOf(data.dealers, s).Some? {
      FilterAll(sel, Joined(DealerJoin(data.dealers)));
    }
  }

  // ---------------------------------------------------------------------
  // The filter matches any dealer with the ID; the breakdowns use the first

  /** With unique dealer IDs the two agree: under a country filter every
      country row is the filtered country. */
  lemma UniqueDealerIdsAgree(data: DashboardData, f: Filters, i: nat)
    requires Distinct(Map(data.dealers, DealerIdOf))
    requires IsSet(f.country)
    requires i < |Aggregate(data, f).revenueByCountry|
    ensures Aggregate(data, f).revenueByCountry[i].country == f.country.value
  {
    var sel := Selected(data, f);
    var rows := Aggregate(data, f).revenueByCountry;
    var c := rows[i].country;
    assert Map(rows, CountryOfRow)[i] == c;
    CountryRowExists(data, f, c);
    var s :| s in sel && DealerOf(data.dealers, s).Some? && DealerOf(data.dealers, s).value.country == c;
    SelectedExactly(data, f, s);
    var d :| d in data.dealers && d.country == f.country.value && d.dealerId == s.dealerId;
    DealerOfUnique(data.dealers, s, d);
  }

  /** With a repeated dealer ID they disagree: the sale passes the "Ghana"
      filter through the second dealer, yet is counted under the first
      dealer's country. */
  lemma DuplicateDealerIdDisagrees()
    ensures var data := DashboardData(
              [Dealer("D1", "North", "Lagos", "Nigeria"), Dealer("D1", "South", "Accra", "Ghana")],
              [],
              [Sale("S1", 0, "D1", "M1", 1, 100, 10)]);
            var f := Filters(Some("Ghana"), None, None, None, DateRange(None, None));
            && Selected(data, f) == data.sales
            && Map(Aggregate(data, f).revenueByCountry, CountryOfRow) == ["Nigeria"]
  {
    var lagos := Dealer("D1", "North", "Lagos", "Nigeria");
    var accra := Dealer("D1", "South", "Accra", "Ghana");
    var sale := Sale("S1", 0, "D1", "M1", 1, 100, 10);
    var data := DashboardData([lagos, accra], [], [sale]);
    var f := Filters(Some("Ghana"), None, None, None, DateRange(None, None));
    assert SaleMatches(data, f, sale) by {
      assert accra in data.dealers;
    }
    FilterAll(data.sales, Matches(data, f));
    assert DealerOf(data.dealers, sale) == Some(lagos);
    CountryOrder(data, f);
    assert Filter([sale], Joined(DealerJoin(data.dealers))) == [sale];
  }

  /** Two dealers in cities with the same name but in different countries:
      the city row carries the country of the later sale's dealer. */
  lemma CityCountryFromLastSale()
    ensures var data := DashboardData(
              [Dealer("D1", "East", "Georgetown", "Guyana"), Dealer("D2", "West", "Georgetown", "Malaysia")],
              [],
              [Sale("S1", 0, "D1", "M1", 1, 100, 10), Sale("S2", 1, "D2", "M1", 1, 200, 20)]);
            var f := Filters(None, None, None, None, DateRange(None, None));
            Aggregate(data, f).revenueByCity == [CityRow("Georgetown", "Malaysia", 300)]
  {
    var east := Dealer("D1", "East", "Georgetown", "Guyana");
    var west := Dealer("D2", "West", "Georgetown", "Malaysia");
    var s1 := Sale("S1", 0, "D1", "M1", 1, 100, 10);
    var s2 := Sale("S2", 1, "D2", "M1", 1, 200, 20);
    var data := DashboardData([east, west], [], [s1, s2]);
    var f := Filters(None, None, None, None, DateRange(None, None));
    NoConstraintKeepsAll(data, f);
    assert DealerOf(data.dealers, s1) == Some(east);
    assert DealerOf(data.dealers, s2) == Some(west) by {
      assert "D1"[1] != "D2"[1];
      assert !HasDealerId(s2.dealerId)(east);
      assert data.dealers[1..] == [west];
      assert Find([west], HasDealerId(s2.dealerId)) == Some(west);
    }
    var one := RevenueByCityMap([s1, s2][..1], data.dealers);
    CityMapSnoc([s1, s2], 0, data.dealers);
    CityMapSnoc([s1, s2], 1, data.dealers);
    assert [s1, s2][..0] == [];
    assert [s1, s2][..2] == [s1, s2];
    assert one == [Entry("Georgetown", CityTotals("Guyana", 100))];
    assert RevenueByCityMap([s1, s2], data.dealers) == [Entry("Georgetown", CityTotals("Malaysia", 300))];
  }
}
