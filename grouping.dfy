/** The accumulation pattern `aggregateData` uses four times
    (src/lib/dataProcessing.ts:126-133, 142-150, 158-168, 175-185): for
    each filtered sale, join it to a dealer or model with `find`; if the
    join fails skip the sale; otherwise compute the group key from the
    joined record and `map.set(key, step(map.get(key), sale, record))`. */
module Grouping {
  import opened DataTypes
  import opened Seqs
  import opened OrderedMaps

  /** The accumulator map after the forEach over `sales`. */
  function GroupBy<J, V>(sales: seq<Sale>, join: Sale -> Option<J>, keyOf: J -> string,
                         step: (Option<V>, Sale, J) -> V): seq<Entry<V>>
  {
    if sales == [] then []
    else
      var acc := GroupBy(sales[..|sales| - 1], join, keyOf, step);
      var s := sales[|sales| - 1];
      match join(s)
      case None => acc
      case Some(j) => Put(acc, keyOf(j), step(Get(acc, keyOf(j)), s, j))
  }

  /** One more iteration of the forEach. */
  lemma GroupBySnoc<J, V>(xs: seq<Sale>, x: Sale, join: Sale -> Option<J>, keyOf: J -> string,
                          step: (Option<V>, Sale, J) -> V)
    ensures GroupBy(xs + [x], join, keyOf, step) ==
              match join(x)
              case None => GroupBy(xs, join, keyOf, step)
              case Some(j) =>
                Put(GroupBy(xs, join, keyOf, step), keyOf(j),
                    step(Get(GroupBy(xs, join, keyOf, step), keyOf(j)), x, j))
  {
    assert (xs + [x])[..|xs|] == xs;
  }

  /** The sale joins to some record. */
  function Joined<J>(join: Sale -> Option<J>): Sale -> bool {
    (s: Sale) => join(s).Some?
  }

  /** The group key of a sale that joins ("" for one that does not; never used). */
  function KeyOfSale<J>(join: Sale -> Option<J>, keyOf: J -> string): Sale -> string {
    (s: Sale) => match join(s) case Some(j) => keyOf(j) case None => ""
  }

  /** The sale joins to a record whose group key is `k`. */
  function JoinsTo<J>(join: Sale -> Option<J>, keyOf: J -> string, k: string): Sale -> bool {
    (s: Sale) => join(s).Some? && keyOf(join(s).value) == k
  }

  /** The value a group holds after folding `step` over its own sales. */
  function Fold<J, V>(ys: seq<Sale>, join: Sale -> Option<J>, step: (Option<V>, Sale, J) -> V): Option<V>
  {
    if ys == [] then None
    else
      var prev := Fold(ys[..|ys| - 1], join, step);
      match join(ys[|ys| - 1])
      case None => prev
      case Some(j) => Some(step(prev, ys[|ys| - 1], j))
  }

  /** The groups appear once each, in the order in which their keys first
      occur among the sales that join. */
  lemma {:induction false} GroupKeys<J, V>(sales: seq<Sale>, join: Sale -> Option<J>, keyOf: J -> string,
                                           step: (Option<V>, Sale, J) -> V)
    ensures Keys(GroupBy(sales, join, keyOf, step)) == Dedup(Map(Filter(sales, Joined(join)), KeyOfSale(join, keyOf)))
  {
    if sales != [] {
      var n := |sales| - 1;
      var xs, x := sales[..n], sales[n];
      assert sales == xs + [x];
      GroupKeys(xs, join, keyOf, step);
      FilterAppend(xs, [x], Joined(join));
      var fx := Filter(xs, Joined(join));
      match join(x)
      case None =>
        assert Filter([x], Joined(join)) == [];
        assert fx + [] == fx;
      case Some(j) =>
        PutKeys(GroupBy(xs, join, keyOf, step), keyOf(j), step(Get(GroupBy(xs, join, keyOf, step), keyOf(j)), x, j));
        assert Filter([x], Joined(join)) == [x];
        MapAppend(fx, [x], KeyOfSale(join, keyOf));
        var keys := Map(fx, KeyOfSale(join, keyOf));
        assert Map([x], KeyOfSale(join, keyOf)) == [keyOf(j)];
        assert (keys + [keyOf(j)])[..|keys|] == keys;
    }
  }

  /** Each group's value is the fold of `step` over exactly the sales that
      join to that key, in sale order; a key no sale joins to is absent. */
  lemma {:induction false} GroupValue<J, V>(sales: seq<Sale>, join: Sale -> Option<J>, keyOf: J -> string,
                                            step: (Option<V>, Sale, J) -> V, k: string)
    ensures Get(GroupBy(sales, join, keyOf, step), k) == Fold(Filter(sales, JoinsTo(join, keyOf, k)), join, step)
  {
    if sales != [] {
      var n := |sales| - 1;
      var xs, x := sales[..n], sales[n];
      assert sales == xs + [x];
      GroupValue(xs, join, keyOf, step, k);
      FilterAppend(xs, [x], JoinsTo(join, keyOf, k));
      var fx := Filter(xs, JoinsTo(join, keyOf, k));
      match join(x)
      case None =>
        assert Filter([x], JoinsTo(join, keyOf, k)) == [];
        assert fx + [] == fx;
      case Some(j) =>
        var acc := GroupBy(xs, join, keyOf, step);
        GetPut(acc, keyOf(j), step(Get(acc, keyOf(j)), x, j), k);
        if keyOf(j) == k {
          assert Filter([x], JoinsTo(join, keyOf, k)) == [x];
          assert (fx + [x])[..|fx|] == fx;
        } else {
          assert Filter([x], JoinsTo(join, keyOf, k)) == [];
          assert fx + [] == fx;
        }
    }
  }

  /** No two groups share a key. */
  lemma GroupDistinct<J, V>(sales: seq<Sale>, join: Sale -> Option<J>, keyOf: J -> string,
                            step: (Option<V>, Sale, J) -> V)
    ensures Distinct(Keys(GroupBy(sales, join, keyOf, step)))
  {
    GroupKeys(sales, join, keyOf, step);
  }

  /** The entry at position `i` holds the fold over exactly the sales of its
      own key. */
  lemma GroupAt<J, V>(sales: seq<Sale>, join: Sale -> Option<J>, keyOf: J -> string,
                      step: (Option<V>, Sale, J) -> V, i: nat)
    requires i < |GroupBy(sales, join, keyOf, step)|
    ensures var m := GroupBy(sales, join, keyOf, step);
            Fold(Filter(sales, JoinsTo(join, keyOf, m[i].key)), join, step) == Some(m[i].val)
  {
    var m := GroupBy(sales, join, keyOf, step);
    GroupDistinct(sales, join, keyOf, step);
    var ks := Keys(m);
    forall a, b | 0 <= a < b < |m| ensures m[a].key != m[b].key {
      assert ks[a] == m[a].key && ks[b] == m[b].key;
    }
    GetAt(m, i);
    GroupValue(sales, join, keyOf, step, m[i].key);
  }

  /** A key is present exactly when some sale joins to it. */
  lemma GroupHasKey<J, V>(sales: seq<Sale>, join: Sale -> Option<J>, keyOf: J -> string,
                          step: (Option<V>, Sale, J) -> V, k: string)
    ensures k in Keys(GroupBy(sales, join, keyOf, step)) <==>
              exists s :: s in sales && join(s).Some? && keyOf(join(s).value) == k
  {
    var fs := Filter(sales, JoinsTo(join, keyOf, k));
    GroupValue(sales, join, keyOf, step, k);
    GetDefined(GroupBy(sales, join, keyOf, step), k);
    FoldSome(fs, join, step);
    if fs != [] {
      assert fs[0] in fs;
    }
  }

  /** Folding over sales that all join yields a value exactly when there is a sale. */
  lemma {:induction false} FoldSome<J, V>(ys: seq<Sale>, join: Sale -> Option<J>, step: (Option<V>, Sale, J) -> V)
    requires forall y :: y in ys ==> join(y).Some?
    ensures Fold(ys, join, step).Some? <==> ys != []
  {
    if ys != [] {
      assert ys[|ys| - 1] in ys;
    }
  }

  /** When each step adds the sale's own amount to the group's measure, the
      groups' measures add up to that amount over the sales that join. */
  lemma {:induction false} GroupSum<J, V>(sales: seq<Sale>, join: Sale -> Option<J>, keyOf: J -> string,
                                          step: (Option<V>, Sale, J) -> V, g: V -> int, h: Sale -> int)
    requires forall o, s, j :: g(step(o, s, j)) == Weight(o, g) + h(s)
    ensures Sum(GroupBy(sales, join, keyOf, step), Measure(g)) == Sum(Filter(sales, Joined(join)), h)
  {
    if sales != [] {
      GroupSum(sales[..|sales| - 1], join, keyOf, step, g, h);
      GroupSumStep(sales, join, keyOf, step, g, h);
    }
  }

  lemma GroupSumStep<J, V>(sales: seq<Sale>, join: Sale -> Option<J>, keyOf: J -> string,
                           step: (Option<V>, Sale, J) -> V, g: V -> int, h: Sale -> int)
    requires forall o, s, j :: g(step(o, s, j)) == Weight(o, g) + h(s)
    requires sales != []
    requires var xs := sales[..|sales| - 1];
             Sum(GroupBy(xs, join, keyOf, step), Measure(g)) == Sum(Filter(xs, Joined(join)), h)
    ensures Sum(GroupBy(sales, join, keyOf, step), Measure(g)) == Sum(Filter(sales, Joined(join)), h)
  {
    var xs, x := sales[..|sales| - 1], sales[|sales| - 1];
    var acc := GroupBy(xs, join, keyOf, step);
    var kept := Filter(xs, Joined(join));
    assert sales == xs + [x];
    FilterAppend(xs, [x], Joined(join));
    match join(x)
    case None =>
      assert Filter([x], Joined(join)) == [];
      assert kept + [] == kept;
    case Some(j) =>
      assert Filter([x], Joined(join)) == [x];
      SumAppend(kept, [x], h);
      assert [x][..0] == [];
      PutSum(acc, keyOf(j), step(Get(acc, keyOf(j)), x, j), g);
  }
}
