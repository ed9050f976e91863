/** The filter bar (src/components/dashboard/FilterPanel.tsx): the option
    lists of its four drop-downs, whether any filter is active, and the
    three ways it produces a new `Filters` value — clearing everything,
    setting one field (resetting the fields that depend on it), and
    replacing the date range from the date picker. */
module FilterPanel {
  import opened DataTypes
  import opened Seqs
  import opened Filtering

  // ---------------------------------------------------------------------
  // Array.prototype.sort() with no comparator: ascending by character codes

  /** `a` sorts strictly before `b`: at the first differing position its
      character is smaller, or it is a proper prefix of `b`. */
  predicate Below(a: string, b: string) {
    if a == [] then b != []
    else b != [] && (a[0] < b[0] || (a[0] == b[0] && Below(a[1..], b[1..])))
  }

  lemma {:induction false} BelowIrreflexive(a: string)
    ensures !Below(a, a)
  {
    if a != [] {
      BelowIrreflexive(a[1..]);
    }
  }

  lemma {:induction false} BelowTotal(a: string, b: string)
    ensures a == b || Below(a, b) || Below(b, a)
  {
    if a != [] && b != [] && a[0] == b[0] {
      BelowTotal(a[1..], b[1..]);
      if a[1..] == b[1..] {
        assert a == [a[0]] + a[1..] && b == [b[0]] + b[1..];
      }
    }
  }

  lemma {:induction false} BelowTransitive(a: string, b: string, c: string)
    requires Below(a, b) && Below(b, c)
    ensures Below(a, c)
  {
    if a != [] && a[0] == b[0] && b[0] == c[0] {
      BelowTransitive(a[1..], b[1..], c[1..]);
    }
  }

  /** Strictly ascending, hence without repeats. */
  predicate Ascending(xs: seq<string>) {
    forall i, j :: 0 <= i < j < |xs| ==> Below(xs[i], xs[j])
  }

  function InsertString(x: string, ys: seq<string>): (r: seq<string>)
    ensures multiset(r) == multiset(ys) + multiset{x}
  {
    if ys == [] || Below(x, ys[0]) then [x] + ys
    else
      assert ys == [ys[0]] + ys[1..];
      [ys[0]] + InsertString(x, ys[1..])
  }

  lemma {:induction false} InsertAscending(x: string, ys: seq<string>)
    requires Ascending(ys) && x !in ys
    ensures Ascending(InsertString(x, ys))
  {
    if ys == [] || Below(x, ys[0]) {
      var r := [x] + ys;
      forall i, j | 0 <= i < j < |r| ensures Below(r[i], r[j]) {
        if i == 0 && j > 1 {
          BelowTransitive(x, ys[0], ys[j - 1]);
        }
      }
    } else {
      BelowTotal(x, ys[0]);
      var rest := InsertString(x, ys[1..]);
      InsertAscending(x, ys[1..]);
      var r := [ys[0]] + rest;
      forall i, j | 0 <= i < j < |r| ensures Below(r[i], r[j]) {
        if i == 0 {
          assert r[j] in multiset(rest);
          if r[j] != x {
            assert r[j] in ys[1..];
            var k :| 0 <= k < |ys[1..]| && ys[1..][k] == r[j];
            assert ys[k + 1] == r[j];
          }
        } else {
          assert r[i] == rest[i - 1] && r[j] == rest[j - 1];
        }
      }
    }
  }

  function SortStrings(xs: seq<string>): (r: seq<string>)
    ensures multiset(r) == multiset(xs)
  {
    if xs == [] then []
    else
      assert xs == [xs[0]] + xs[1..];
      InsertString(xs[0], SortStrings(xs[1..]))
  }

  /** Sorting strings without repeats gives them in ascending order. */
  lemma {:induction false} SortAscending(xs: seq<string>)
    requires Distinct(xs)
    ensures Ascending(SortStrings(xs))
  {
    if xs != [] {
      assert Distinct(xs[1..]) by {
        forall i, j | 0 <= i < j < |xs[1..]| ensures xs[1..][i] != xs[1..][j] {
          assert xs[i + 1] != xs[j + 1];
        }
      }
      SortAscending(xs[1..]);
      var sorted := SortStrings(xs[1..]);
      assert xs[0] !in multiset(sorted);
      InsertAscending(xs[0], sorted);
    }
  }

  /** `[...new Set(xs)].sort()`: each value once, in ascending order. */
  function Options(xs: seq<string>): (r: seq<string>)
    ensures Ascending(r)
    ensures forall x :: x in r <==> x in xs
  {
    var unique := Dedup(xs);
    SortAscending(unique);
    var r := SortStrings(unique);
    assert forall x :: x in r <==> x in multiset(unique);
    r
  }

  // ---------------------------------------------------------------------
  // The four option lists

  /** Every dealer country, ascending. */
  function CountryOptions(data: DashboardData): (r: seq<string>)
    ensures Ascending(r)
    ensures forall c :: c in r <==> exists d :: d in data.dealers && d.country == c
  {
    var r := Options(Map(data.dealers, CountryKey));
    assert forall c :: c in r <==> exists d :: d in data.dealers && d.country == c by {
      forall c ensures c in r <==> exists d :: d in data.dealers && d.country == c {
        MapHas(data.dealers, CountryKey, c);
      }
    }
    r
  }

  /** The cities of the dealers in the chosen country, or of all dealers
      when no country is chosen, ascending. */
  function CityOptions(data: DashboardData, f: Filters): (r: seq<string>)
    ensures Ascending(r)
    ensures forall c :: c in r <==>
              exists d :: d in data.dealers && d.city == c && (IsSet(f.country) ==> d.country == f.country.value)
  {
    var list := if IsSet(f.country) then Filter(data.dealers, CountryIs(f.country.value)) else data.dealers;
    var r := Options(Map(list, CityKey));
    assert forall c :: c in r <==>
              exists d :: d in data.dealers && d.city == c && (IsSet(f.country) ==> d.country == f.country.value) by {
      forall c ensures c in r <==>
                 exists d :: d in data.dealers && d.city == c && (IsSet(f.country) ==> d.country == f.country.value) {
        MapHas(list, CityKey, c);
      }
    }
    r
  }

  /** Every model brand, ascending. */
  function BrandOptions(data: DashboardData): (r: seq<string>)
    ensures Ascending(r)
    ensures forall b :: b in r <==> exists m :: m in data.models && m.brand == b
  {
    var r := Options(Map(data.models, BrandKey));
    assert forall b :: b in r <==> exists m :: m in data.models && m.brand == b by {
      forall b ensures b in r <==> exists m :: m in data.models && m.brand == b {
        MapHas(data.models, BrandKey, b);
      }
    }
    r
  }

  /** The names of the models of the chosen brand, or of all models when
      no brand is chosen, ascending. */
  function ModelOptions(data: DashboardData, f: Filters): (r: seq<string>)
    ensures Ascending(r)
    ensures forall n :: n in r <==>
              exists m :: m in data.models && m.name == n && (IsSet(f.brand) ==> m.brand == f.brand.value)
  {
    var list := if IsSet(f.brand) then Filter(data.models, BrandIs(f.brand.value)) else data.models;
    var r := Options(Map(list, NameKey));
    assert forall n :: n in r <==>
              exists m :: m in data.models && m.name == n && (IsSet(f.brand) ==> m.brand == f.brand.value) by {
      forall n ensures n in r <==>
                 exists m :: m in data.models && m.name == n && (IsSet(f.brand) ==> m.brand == f.brand.value) {
        MapHas(list, NameKey, n);
      }
    }
    r
  }

  // ---------------------------------------------------------------------
  // Whether a filter is active, and the three updates

  /** JavaScript truthiness of the six fields: a string is active when
      non-empty, a date bound when present. */
  predicate HasActiveFilters(f: Filters) {
    IsSet(f.country) || IsSet(f.city) || IsSet(f.brand) || IsSet(f.model)
    || f.dateRange.start.Some? || f.dateRange.end.Some?
  }

  /** The badge agrees with `applyFilters`: no filter is active exactly
      when nothing constrains the sales, and then every sale is shown. */
  lemma ActiveMeansConstrained(data: DashboardData, f: Filters)
    ensures HasActiveFilters(f) <==> !NoConstraint(f)
    ensures !HasActiveFilters(f) ==> Selected(data, f) == data.sales
  {
    if !HasActiveFilters(f) {
      NoConstraintKeepsAll(data, f);
    }
  }

  /** Every field back to null. */
  function ClearFilters(): (r: Filters)
    ensures !HasActiveFilters(r)
    ensures r.country.None? && r.city.None? && r.brand.None? && r.model.None?
  {
    Filters(None, None, None, None, DateRange(None, None))
  }

  /** After clearing, the dashboard shows every sale. */
  lemma ClearShowsAll(data: DashboardData)
    ensures Selected(data, ClearFilters()) == data.sales
  {
    ActiveMeansConstrained(data, ClearFilters());
  }

  /** The drop-down fields `updateFilter` can set. */
  datatype FilterField = CountryField | CityField | BrandField | ModelField

  function Field(f: Filters, k: FilterField): Option<string> {
    match k
    case CountryField => f.country
    case CityField => f.city
    case BrandField => f.brand
    case ModelField => f.model
  }

  /** The field that depends on `k` and is reset when `k` changes. */
  predicate DependsOn(dependent: FilterField, k: FilterField) {
    (k == CountryField && dependent == CityField) || (k == BrandField && dependent == ModelField)
  }

  /** `updateFilter(key, value)`: sets `key`; choosing a country clears the
      city and choosing a brand clears the model; nothing else changes. */
  function UpdateFilter(f: Filters, key: FilterField, value: Option<string>): (r: Filters)
    ensures Field(r, key) == value
    ensures forall k :: k != key ==> Field(r, k) == if DependsOn(k, key) then None else Field(f, k)
    ensures r.dateRange == f.dateRange
  {
    match key
    case CountryField => f.(country := value, city := None)
    case CityField => f.(city := value)
    case BrandField => f.(brand := value, model := None)
    case ModelField => f.(model := value)
  }

  /** After choosing a country, every city still offered lies in it, and
      no stale city narrows the sales any more. */
  lemma CountryChoiceScopesCities(data: DashboardData, f: Filters, c: string)
    requires c != ""
    ensures var g := UpdateFilter(f, CountryField, Some(c));
            && !IsSet(g.city)
            && forall city :: city in CityOptions(data, g) ==>
                 exists d :: d in data.dealers && d.city == city && d.country == c
  {
  }

  /** The range the date picker displays: absent when neither bound is set. */
  datatype PickerRange = PickerRange(from: Option<int>, to: Option<int>)

  function PickerRangeOf(f: Filters): (range: Option<PickerRange>)
    ensures range.None? <==> f.dateRange.start.None? && f.dateRange.end.None?
  {
    if f.dateRange.start.Some? || f.dateRange.end.Some? then
      Some(PickerRange(f.dateRange.start, f.dateRange.end))
    else None
  }

  /** `handleDateRangeChange(range)`: replaces only the date range; a
      cleared picker (undefined) nulls both bounds. */
  function HandleDateRangeChange(f: Filters, range: Option<PickerRange>): (r: Filters)
    ensures r.(dateRange := f.dateRange) == f
    ensures range.None? ==> r.dateRange.start.None? && r.dateRange.end.None?
    ensures range.Some? ==> r.dateRange.start == range.value.from && r.dateRange.end == range.value.to
  {
    match range
    case None => f.(dateRange := DateRange(None, None))
    case Some(p) => f.(dateRange := DateRange(p.from, p.to))
  }

  /** Handing the picker's own range back changes nothing. */
  lemma PickerRoundTrip(f: Filters)
    ensures HandleDateRangeChange(f, PickerRangeOf(f)) == f
  {
  }
}
