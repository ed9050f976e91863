/** `applyFilters` (src/lib/dataProcessing.ts): narrows the sales list by
    up to six conjunctive predicates. Country, city, brand and model are
    resolved by collecting the IDs of the matching dealers or models and
    testing the sale's foreign key for membership; the date bounds are
    inclusive. A null or empty filter string, and a null date bound,
    impose nothing. */
module Filtering {
  import opened DataTypes
  import opened Seqs

  // ---------------------------------------------------------------------
  // The predicates the source passes to filter()

  function CountryIs(c: string): Dealer -> bool { (d: Dealer) => d.country == c }
  function CityIs(c: string): Dealer -> bool { (d: Dealer) => d.city == c }
  function BrandIs(b: string): CarModel -> bool { (m: CarModel) => m.brand == b }
  function ModelNamed(n: string): CarModel -> bool { (m: CarModel) => m.name == n }

  /** `s => dealerIds.includes(s.DealerID)` */
  function DealerIn(ids: seq<string>): Sale -> bool { (s: Sale) => s.dealerId in ids }
  /** `s => modelIds.includes(s.ModelID)` */
  function ModelIn(ids: seq<string>): Sale -> bool { (s: Sale) => s.modelId in ids }
  /** `s => s.Date >= start` */
  function NotBefore(t: int): Sale -> bool { (s: Sale) => s.date >= t }
  /** `s => s.Date <= end` */
  function NotAfter(t: int): Sale -> bool { (s: Sale) => s.date <= t }

  /** `dealers.filter(p).map(d => d.DealerID)` */
  function DealerIds(dealers: seq<Dealer>, p: Dealer -> bool): (ids: seq<string>)
    ensures forall id :: id in ids <==> exists d :: d in dealers && p(d) && d.dealerId == id
  {
    var kept := Filter(dealers, p);
    var ids := Map(kept, DealerIdOf);
    assert forall id :: id in ids <==> exists d :: d in kept && d.dealerId == id by {
      forall id | id in ids ensures exists d :: d in kept && d.dealerId == id {
        var i :| 0 <= i < |ids| && ids[i] == id;
        assert kept[i] in kept;
      }
      forall d | d in kept ensures d.dealerId in ids {
        var i :| 0 <= i < |kept| && kept[i] == d;
        assert ids[i] == d.dealerId;
      }
    }
    ids
  }

  /** `models.filter(p).map(m => m.ModelID)` */
  function ModelIds(models: seq<CarModel>, p: CarModel -> bool): (ids: seq<string>)
    ensures forall id :: id in ids <==> exists m :: m in models && p(m) && m.modelId == id
  {
    var kept := Filter(models, p);
    var ids := Map(kept, ModelIdOf);
    assert forall id :: id in ids <==> exists m :: m in kept && m.modelId == id by {
      forall id | id in ids ensures exists m :: m in kept && m.modelId == id {
        var i :| 0 <= i < |ids| && ids[i] == id;
        assert kept[i] in kept;
      }
      forall m | m in kept ensures m.modelId in ids {
        var i :| 0 <= i < |kept| && kept[i] == m;
        assert ids[i] == m.modelId;
      }
    }
    ids
  }

  // ---------------------------------------------------------------------
  // What each active filter demands of a sale, stated on the records

  predicate CountryOk(data: DashboardData, f: Filters, s: Sale) {
    IsSet(f.country) ==>
      exists d :: d in data.dealers && d.country == f.country.value && d.dealerId == s.dealerId
  }

  predicate CityOk(data: DashboardData, f: Filters, s: Sale) {
    IsSet(f.city) ==>
      exists d :: d in data.dealers && d.city == f.city.value && d.dealerId == s.dealerId
  }

  predicate BrandOk(data: DashboardData, f: Filters, s: Sale) {
    IsSet(f.brand) ==>
      exists m :: m in data.models && m.brand == f.brand.value && m.modelId == s.modelId
  }

  predicate ModelOk(data: DashboardData, f: Filters, s: Sale) {
    IsSet(f.model) ==>
      exists m :: m in data.models && m.name == f.model.value && m.modelId == s.modelId
  }

  predicate StartOk(f: Filters, s: Sale) {
    f.dateRange.start.Some? ==> f.dateRange.start.value <= s.date
  }

  predicate EndOk(f: Filters, s: Sale) {
    f.dateRange.end.Some? ==> s.date <= f.dateRange.end.value
  }

  /** A sale passes the filter when it meets every active predicate. */
  predicate SaleMatches(data: DashboardData, f: Filters, s: Sale) {
    && CountryOk(data, f, s) && CityOk(data, f, s)
    && BrandOk(data, f, s) && ModelOk(data, f, s)
    && StartOk(f, s) && EndOk(f, s)
  }

  function Matches(data: DashboardData, f: Filters): Sale -> bool {
    (s: Sale) => SaleMatches(data, f, s)
  }

  /** The sales `applyFilters` returns. */
  function Selected(data: DashboardData, f: Filters): seq<Sale> {
    Filter(data.sales, Matches(data, f))
  }

  /** No field set: null strings, empty strings and null dates. */
  predicate NoConstraint(f: Filters) {
    !IsSet(f.country) && !IsSet(f.city) && !IsSet(f.brand) && !IsSet(f.model)
    && f.dateRange.start.None? && f.dateRange.end.None?
  }

  // ---------------------------------------------------------------------
  // The imperative narrowing

  /** The first `k` of the six predicates, in the order the source applies them. */
  predicate PassesFirst(data: DashboardData, f: Filters, s: Sale, k: nat) {
    && (k >= 1 ==> CountryOk(data, f, s))
    && (k >= 2 ==> CityOk(data, f, s))
    && (k >= 3 ==> BrandOk(data, f, s))
    && (k >= 4 ==> ModelOk(data, f, s))
    && (k >= 5 ==> StartOk(f, s))
    && (k >= 6 ==> EndOk(f, s))
  }

  function Stage(data: DashboardData, f: Filters, k: nat): Sale -> bool {
    (s: Sale) => PassesFirst(data, f, s, k)
  }

  /** Applying stage k+1's test (or nothing, when its field is unset) to
      what passed the first k stages gives what passes k+1 stages. */
  lemma Narrow(data: DashboardData, f: Filters, k: nat, before: seq<Sale>, active: bool, q: Sale -> bool)
    requires before == Filter(data.sales, Stage(data, f, k))
    requires active ==> forall s :: PassesFirst(data, f, s, k + 1) == (PassesFirst(data, f, s, k) && q(s))
    requires !active ==> forall s :: PassesFirst(data, f, s, k + 1) == PassesFirst(data, f, s, k)
    ensures (if active then Filter(before, q) else before) == Filter(data.sales, Stage(data, f, k + 1))
  {
    if active {
      FilterConj(data.sales, Stage(data, f, k), q, Stage(data, f, k + 1));
    } else {
      FilterExt(data.sales, Stage(data, f, k), Stage(data, f, k + 1));
    }
  }

  lemma CountryStage(data: DashboardData, f: Filters, before: seq<Sale>)
    requires before == Filter(data.sales, Stage(data, f, 0))
    ensures IsSet(f.country) ==>
      Filter(before, DealerIn(DealerIds(data.dealers, CountryIs(f.country.value))))
        == Filter(data.sales, Stage(data, f, 1))
    ensures !IsSet(f.country) ==> before == Filter(data.sales, Stage(data, f, 1))
  {
    if IsSet(f.country) {
      Narrow(data, f, 0, before, true, DealerIn(DealerIds(data.dealers, CountryIs(f.country.value))));
    } else {
      Narrow(data, f, 0, before, false, DealerIn([]));
    }
  }

  lemma CityStage(data: DashboardData, f: Filters, before: seq<Sale>)
    requires before == Filter(data.sales, Stage(data, f, 1))
    ensures IsSet(f.city) ==>
      Filter(before, DealerIn(DealerIds(data.dealers, CityIs(f.city.value))))
        == Filter(data.sales, Stage(data, f, 2))
    ensures !IsSet(f.city) ==> before == Filter(data.sales, Stage(data, f, 2))
  {
    if IsSet(f.city) {
      Narrow(data, f, 1, before, true, DealerIn(DealerIds(data.dealers, CityIs(f.city.value))));
    } else {
      Narrow(data, f, 1, before, false, DealerIn([]));
    }
  }

  lemma BrandStage(data: DashboardData, f: Filters, before: seq<Sale>)
    requires before == Filter(data.sales, Stage(data, f, 2))
    ensures IsSet(f.brand) ==>
      Filter(before, ModelIn(ModelIds(data.models, BrandIs(f.brand.value))))
        == Filter(data.sales, Stage(data, f, 3))
    ensures !IsSet(f.brand) ==> before == Filter(data.sales, Stage(data, f, 3))
  {
    if IsSet(f.brand) {
      Narrow(data, f, 2, before, true, ModelIn(ModelIds(data.models, BrandIs(f.brand.value))));
    } else {
      Narrow(data, f, 2, before, false, ModelIn([]));
    }
  }

  lemma ModelStage(data: DashboardData, f: Filters, before: seq<Sale>)
    requires before == Filter(data.sales, Stage(data, f, 3))
    ensures IsSet(f.model) ==>
      Filter(before, ModelIn(ModelIds(data.models, ModelNamed(f.model.value))))
        == Filter(data.sales, Stage(data, f, 4))
    ensures !IsSet(f.model) ==> before == Filter(data.sales, Stage(data, f, 4))
  {
    if IsSet(f.model) {
      Narrow(data, f, 3, before, true, ModelIn(ModelIds(data.models, ModelNamed(f.model.value))));
    } else {
      Narrow(data, f, 3, before, false, ModelIn([]));
    }
  }

  lemma DateStages(data: DashboardData, f: Filters, before: seq<Sale>)
    requires before == Filter(data.sales, Stage(data, f, 4))
    ensures var afterStart := if f.dateRange.start.Some? then Filter(before, NotBefore(f.dateRange.start.value)) else before;
            afterStart == Filter(data.sales, Stage(data, f, 5))
            && (if f.dateRange.end.Some? then Filter(afterStart, NotAfter(f.dateRange.end.value)) else afterStart)
               == Filter(data.sales, Matches(data, f))
  {
    var start := f.dateRange.start;
    Narrow(data, f, 4, before, start.Some?, if start.Some? then NotBefore(start.value) else NotBefore(0));
    var afterStart := if start.Some? then Filter(before, NotBefore(start.value)) else before;
    var end := f.dateRange.end;
    Narrow(data, f, 5, afterStart, end.Some?, if end.Some? then NotAfter(end.value) else NotAfter(0));
    FilterExt(data.sales, Stage(data, f, 6), Matches(data, f));
  }

  method ApplyFilters(data: DashboardData, f: Filters) returns (sales: seq<Sale>)
    ensures sales == Selected(data, f)
  {
    sales := data.sales;
    FilterAll(data.sales, Stage(data, f, 0));

    CountryStage(data, f, sales);
    if IsSet(f.country) {
      var dealerIds := DealerIds(data.dealers, CountryIs(f.country.value));
      sales := Filter(sales, DealerIn(dealerIds));
    }

    CityStage(data, f, sales);
    if IsSet(f.city) {
      var dealerIds := DealerIds(data.dealers, CityIs(f.city.value));
      sales := Filter(sales, DealerIn(dealerIds));
    }

    BrandStage(data, f, sales);
    if IsSet(f.brand) {
      var modelIds := ModelIds(data.models, BrandIs(f.brand.value));
      sales := Filter(sales, ModelIn(modelIds));
    }

    ModelStage(data, f, sales);
    if IsSet(f.model) {
      var modelIds := ModelIds(data.models, ModelNamed(f.model.value));
      sales := Filter(sales, ModelIn(modelIds));
    }

    DateStages(data, f, sales);
    if f.dateRange.start.Some? {
      sales := Filter(sales, NotBefore(f.dateRange.start.value));
    }

    if f.dateRange.end.Some? {
      sales := Filter(sales, NotAfter(f.dateRange.end.value));
    }
  }

  // ---------------------------------------------------------------------
  // What the result is

  /** The result keeps the input order: it is a subsequence of the sales. */
  lemma SelectedIsSubsequence(data: DashboardData, f: Filters)
    ensures IsSubsequence(Selected(data, f), data.sales)
  {
    FilterIsSubsequence(data.sales, Matches(data, f));
  }

  /** A sale is kept exactly when it passes every active predicate, and
      then with all its occurrences; a sale that fails one is dropped. */
  lemma SelectedExactly(data: DashboardData, f: Filters, s: Sale)
    ensures s in Selected(data, f) <==> s in data.sales && SaleMatches(data, f, s)
    ensures multiset(Selected(data, f))[s] ==
              if SaleMatches(data, f, s) then multiset(data.sales)[s] else 0
  {
    FilterCount(data.sales, Matches(data, f), s);
  }

  /** With no field set, every sale is returned, in order. */
  lemma NoConstraintKeepsAll(data: DashboardData, f: Filters)
    requires NoConstraint(f)
    ensures Selected(data, f) == data.sales
  {
    FilterAll(data.sales, Matches(data, f));
  }

  /** The date bounds are inclusive: a sale dated exactly on a bound, and
      meeting the other predicates, is kept. */
  lemma BoundsInclusive(data: DashboardData, f: Filters, s: Sale)
    requires s in data.sales
    requires CountryOk(data, f, s) && CityOk(data, f, s) && BrandOk(data, f, s) && ModelOk(data, f, s)
    requires f.dateRange.start == Some(s.date) || f.dateRange.start.None?
    requires f.dateRange.end == Some(s.date) || f.dateRange.end.None?
    ensures s in Selected(data, f)
  {
    SelectedExactly(data, f, s);
  }
}
