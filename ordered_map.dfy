/** JavaScript's `Map<string, V>`: a dictionary whose entries iterate in
    the order their keys were first inserted. It is represented by its
    entry list, which is what `Array.from(map.entries())` returns. */
module OrderedMaps {
  import opened DataTypes
  import opened Seqs

  datatype Entry<V> = Entry(key: string, val: V)

  function Keys<V>(m: seq<Entry<V>>): (ks: seq<string>)
    ensures |ks| == |m|
    ensures forall i :: 0 <= i < |m| ==> ks[i] == m[i].key
  {
    if m == [] then [] else [m[0].key] + Keys(m[1..])
  }

  /** `map.get(k)`; None is undefined. */
  function Get<V>(m: seq<Entry<V>>, k: string): Option<V>
  {
    if m == [] then None
    else if m[0].key == k then Some(m[0].val)
    else Get(m[1..], k)
  }

  /** `map.set(k, v)`: an existing key keeps its place and gets the new
      value; a new key is appended. */
  function Put<V>(m: seq<Entry<V>>, k: string, v: V): seq<Entry<V>>
  {
    if m == [] then [Entry(k, v)]
    else if m[0].key == k then [Entry(k, v)] + m[1..]
    else [m[0]] + Put(m[1..], k, v)
  }

  /** `map.get(k)` is defined exactly for the keys present. */
  lemma {:induction false} GetDefined<V>(m: seq<Entry<V>>, k: string)
    ensures Get(m, k).Some? <==> k in Keys(m)
  {
    if m != [] {
      GetDefined(m[1..], k);
      assert Keys(m) == [m[0].key] + Keys(m[1..]);
    }
  }

  /** `map.set(k, v)` keeps the key order, appending `k` if it is new. */
  lemma {:induction false} PutKeys<V>(m: seq<Entry<V>>, k: string, v: V)
    ensures Keys(Put(m, k, v)) == if k in Keys(m) then Keys(m) else Keys(m) + [k]
  {
    if m != [] {
      assert Keys(m) == [m[0].key] + Keys(m[1..]);
      if m[0].key != k {
        PutKeys(m[1..], k, v);
        assert Keys(Put(m, k, v)) == [m[0].key] + Keys(Put(m[1..], k, v));
      }
    }
  }

  /** After `map.set(k, v)`, `k` maps to `v` and every other key to what it
      mapped to before. */
  lemma {:induction false} GetPut<V>(m: seq<Entry<V>>, k: string, v: V, k': string)
    ensures Get(Put(m, k, v), k') == if k' == k then Some(v) else Get(m, k')
  {
    if m != [] && m[0].key != k {
      GetPut(m[1..], k, v, k');
    }
  }

  /** With distinct keys, looking up an entry's key gives that entry's value. */
  lemma {:induction false} GetAt<V>(m: seq<Entry<V>>, i: nat)
    requires i < |m|
    requires forall a, b :: 0 <= a < b < |m| ==> m[a].key != m[b].key
    ensures Get(m, m[i].key) == Some(m[i].val)
  {
    if i > 0 {
      GetAt(m[1..], i - 1);
      assert m[1..][i - 1] == m[i];
    }
  }

  /** `o || dflt` on a value that may be undefined. */
  function OrElse<V>(o: Option<V>, dflt: V): V {
    if o.Some? then o.value else dflt
  }

  /** A numeric measure of an entry's value, and of a value that may be undefined. */
  function Measure<V>(g: V -> int): Entry<V> -> int { (e: Entry<V>) => g(e.val) }

  function Weight<V>(o: Option<V>, g: V -> int): int {
    if o.Some? then g(o.value) else 0
  }

  /** `map.set(k, v)` changes the total measure of the values by the
      difference between the new value and the old one. */
  lemma {:induction false} PutSum<V>(m: seq<Entry<V>>, k: string, v: V, g: V -> int)
    ensures Sum(Put(m, k, v), Measure(g)) == Sum(m, Measure(g)) - Weight(Get(m, k), g) + g(v)
  {
    if m == [] {
      assert Put(m, k, v) == [Entry(k, v)];
      assert [Entry(k, v)][..0] == [];
    } else {
      assert m == [m[0]] + m[1..];
      SumCons(m[0], m[1..], Measure(g));
      if m[0].key == k {
        SumCons(Entry(k, v), m[1..], Measure(g));
      } else {
        PutSum(m[1..], k, v, g);
        SumCons(m[0], Put(m[1..], k, v), Measure(g));
      }
    }
  }
}
