/** The JavaScript array operations the engine is written with
    (filter, map, find, reduce, new Set, a stable sort by a numeric
    comparator, slice), as functions on sequences, with the facts the
    rest of the model needs about them. */
module Seqs {
  import opened DataTypes

  // ---------------------------------------------------------------------
  // Array.prototype.filter

  /** The elements of `xs` that satisfy `p`, in their original order. */
  function Filter<T(==,!new)>(xs: seq<T>, p: T -> bool): (r: seq<T>)
    ensures |r| <= |xs|
    ensures forall x :: x in r <==> x in xs && p(x)
  {
    if xs == [] then []
    else (if p(xs[0]) then [xs[0]] else []) + Filter(xs[1..], p)
  }

  /** `a` can be obtained from `b` by deleting elements. */
  predicate IsSubsequence<T(==,!new)>(a: seq<T>, b: seq<T>)
    decreases |b|
  {
    if a == [] then true
    else if b == [] then false
    else (a[0] == b[0] && IsSubsequence(a[1..], b[1..])) || IsSubsequence(a, b[1..])
  }

  lemma {:induction false} FilterIsSubsequence<T(!new)>(xs: seq<T>, p: T -> bool)
    ensures IsSubsequence(Filter(xs, p), xs)
  {
    if xs != [] {
      FilterIsSubsequence(xs[1..], p);
      var r := Filter(xs, p);
      if p(xs[0]) {
        assert r == [xs[0]] + Filter(xs[1..], p);
        assert r[1..] == Filter(xs[1..], p);
      } else {
        assert r == Filter(xs[1..], p);
      }
    }
  }

  /** Filter keeps every occurrence of a satisfying element and none of the others. */
  lemma {:induction false} FilterCount<T(!new)>(xs: seq<T>, p: T -> bool, x: T)
    ensures multiset(Filter(xs, p))[x] == if p(x) then multiset(xs)[x] else 0
  {
    if xs != [] {
      FilterCount(xs[1..], p, x);
      assert xs == [xs[0]] + xs[1..];
      assert multiset(xs) == multiset([xs[0]]) + multiset(xs[1..]);
    }
  }

  lemma {:induction false} FilterAppend<T(!new)>(a: seq<T>, b: seq<T>, p: T -> bool)
    ensures Filter(a + b, p) == Filter(a, p) + Filter(b, p)
  {
    if a == [] {
      assert a + b == b;
    } else {
      FilterAppend(a[1..], b, p);
      var head := if p(a[0]) then [a[0]] else [];
      calc {
        Filter(a + b, p);
        { TailAppend(a, b); }
        head + Filter(a[1..] + b, p);
        head + (Filter(a[1..], p) + Filter(b, p));
        (head + Filter(a[1..], p)) + Filter(b, p);
        Filter(a, p) + Filter(b, p);
      }
    }
  }

  lemma TailAppend<T>(a: seq<T>, b: seq<T>)
    requires a != []
    ensures (a + b)[0] == a[0] && (a + b)[1..] == a[1..] + b
  {
  }

  /** Two predicates that agree on the elements of `xs` select the same elements. */
  lemma {:induction false} FilterExt<T(!new)>(xs: seq<T>, p: T -> bool, q: T -> bool)
    requires forall x :: x in xs ==> p(x) == q(x)
    ensures Filter(xs, p) == Filter(xs, q)
  {
    if xs != [] {
      FilterExt(xs[1..], p, q);
    }
  }

  /** Filtering by a predicate every element satisfies changes nothing. */
  lemma {:induction false} FilterAll<T(!new)>(xs: seq<T>, p: T -> bool)
    requires forall x :: x in xs ==> p(x)
    ensures Filter(xs, p) == xs
  {
    if xs != [] {
      FilterAll(xs[1..], p);
    }
  }

  /** Two successive filters are one filter by the conjunction. */
  lemma {:induction false} FilterConj<T(!new)>(xs: seq<T>, p: T -> bool, q: T -> bool, pq: T -> bool)
    requires forall x :: x in xs ==> pq(x) == (p(x) && q(x))
    ensures Filter(Filter(xs, p), q) == Filter(xs, pq)
  {
    if xs != [] {
      FilterConj(xs[1..], p, q, pq);
      var rest := Filter(xs[1..], p);
      if p(xs[0]) {
        assert Filter(xs, p) == [xs[0]] + rest;
        FilterAppend([xs[0]], rest, q);
      } else {
        assert Filter(xs, p) == rest;
      }
    }
  }

  // ---------------------------------------------------------------------
  // Array.prototype.map and Array.prototype.find

  function Map<T, U>(xs: seq<T>, f: T -> U): (r: seq<U>)
    ensures |r| == |xs|
    ensures forall i :: 0 <= i < |xs| ==> r[i] == f(xs[i])
  {
    if xs == [] then [] else [f(xs[0])] + Map(xs[1..], f)
  }

  /** A value is in the image exactly when some element maps to it. */
  lemma MapHas<T, U>(xs: seq<T>, f: T -> U, y: U)
    ensures y in Map(xs, f) <==> exists x :: x in xs && f(x) == y
  {
    if y in Map(xs, f) {
      var i :| 0 <= i < |xs| && Map(xs, f)[i] == y;
      assert xs[i] in xs;
    }
    if exists x :: x in xs && f(x) == y {
      var x :| x in xs && f(x) == y;
      var i :| 0 <= i < |xs| && xs[i] == x;
      assert Map(xs, f)[i] == y;
    }
  }

  lemma MapAppend<T, U>(a: seq<T>, b: seq<T>, f: T -> U)
    ensures Map(a + b, f) == Map(a, f) + Map(b, f)
  {
    assert forall i :: 0 <= i < |a + b| ==> Map(a + b, f)[i] == (Map(a, f) + Map(b, f))[i] by {
      forall i | 0 <= i < |a + b| ensures Map(a + b, f)[i] == (Map(a, f) + Map(b, f))[i] {
        if i < |a| { assert (a + b)[i] == a[i]; } else { assert (a + b)[i] == b[i - |a|]; }
      }
    }
  }

  /** Summing through a map is summing the composed measure. */
  lemma {:induction false} SumMap<T, U>(xs: seq<T>, g: T -> U, h: U -> int, hg: T -> int)
    requires forall x :: hg(x) == h(g(x))
    ensures Sum(Map(xs, g), h) == Sum(xs, hg)
  {
    if xs != [] {
      var n := |xs| - 1;
      SumMap(xs[..n], g, h, hg);
      MapAppend(xs[..n], [xs[n]], g);
      assert xs[..n] + [xs[n]] == xs;
      SumAppend(Map(xs[..n], g), Map([xs[n]], g), h);
      assert Sum(Map([xs[n]], g), h) == h(g(xs[n])) by {
        assert Map([xs[n]], g) == [g(xs[n])];
        assert [g(xs[n])][..0] == [];
      }
    }
  }

  /** `xs.find(p)`: the first element satisfying `p`, if any. */
  function Find<T>(xs: seq<T>, p: T -> bool): Option<T>
  {
    if xs == [] then None
    else if p(xs[0]) then Some(xs[0])
    else Find(xs[1..], p)
  }

  /** `find` fails exactly when no element satisfies `p`, and otherwise
      returns the element at the first index that does. */
  lemma {:induction false} FindSpec<T>(xs: seq<T>, p: T -> bool)
    ensures Find(xs, p).None? <==> forall i :: 0 <= i < |xs| ==> !p(xs[i])
    ensures Find(xs, p).Some? ==>
              exists i :: 0 <= i < |xs| && xs[i] == Find(xs, p).value && p(xs[i])
                && forall j :: 0 <= j < i ==> !p(xs[j])
  {
    if xs != [] && !p(xs[0]) {
      FindSpec(xs[1..], p);
      var r := Find(xs[1..], p);
      if r.None? {
        forall i | 0 <= i < |xs| ensures !p(xs[i]) {
          if i > 0 { assert xs[i] == xs[1..][i - 1]; }
        }
      } else {
        var i :| 0 <= i < |xs[1..]| && xs[1..][i] == r.value && p(xs[1..][i])
                 && forall j :: 0 <= j < i ==> !p(xs[1..][j]);
        assert xs[i + 1] == r.value && p(xs[i + 1]);
        forall j | 0 <= j < i + 1 ensures !p(xs[j]) {
          if j > 0 { assert xs[j] == xs[1..][j - 1]; }
        }
      }
    }
  }

  // ---------------------------------------------------------------------
  // Array.prototype.reduce((sum, x) => sum + f(x), 0)

  /** The left-to-right sum of `f` over `xs`, as `reduce` computes it. */
  function Sum<T>(xs: seq<T>, f: T -> int): int
  {
    if xs == [] then 0 else Sum(xs[..|xs| - 1], f) + f(xs[|xs| - 1])
  }

  lemma {:induction false} SumAppend<T>(a: seq<T>, b: seq<T>, f: T -> int)
    ensures Sum(a + b, f) == Sum(a, f) + Sum(b, f)
  {
    if b == [] {
      assert a + b == a;
    } else {
      SumAppend(a, b[..|b| - 1], f);
      assert (a + b)[..|a + b| - 1] == a + b[..|b| - 1];
    }
  }

  lemma SumCons<T>(x: T, ys: seq<T>, f: T -> int)
    ensures Sum([x] + ys, f) == f(x) + Sum(ys, f)
  {
    SumAppend([x], ys, f);
    assert [x][..0] == [];
  }

  // ---------------------------------------------------------------------
  // [...new Set(xs)]: the distinct elements in order of first appearance

  predicate Distinct<T(==)>(xs: seq<T>) {
    forall i, j :: 0 <= i < j < |xs| ==> xs[i] != xs[j]
  }

  function Dedup<T(==,!new)>(xs: seq<T>): (r: seq<T>)
    ensures Distinct(r)
    ensures forall x :: x in r <==> x in xs
  {
    if xs == [] then []
    else
      var d := Dedup(xs[..|xs| - 1]);
      assert forall x :: x in xs <==> x in xs[..|xs| - 1] || x == xs[|xs| - 1] by {
        assert xs == xs[..|xs| - 1] + [xs[|xs| - 1]];
      }
      if xs[|xs| - 1] in d then d else d + [xs[|xs| - 1]]
  }

  // ---------------------------------------------------------------------
  // xs.sort((a, b) => key(b) - key(a)): stable, non-increasing by key

  predicate SortedDesc<T>(xs: seq<T>, key: T -> int) {
    forall i, j :: 0 <= i < j < |xs| ==> key(xs[i]) >= key(xs[j])
  }

  /** Places `x` before the first element whose key is not larger, so that
      `x`, which came first in the input, stays ahead of equal keys. */
  function Insert<T(==)>(x: T, ys: seq<T>, key: T -> int): (r: seq<T>)
    ensures multiset(r) == multiset(ys) + multiset{x}
  {
    if ys == [] || key(x) >= key(ys[0]) then [x] + ys
    else
      assert ys == [ys[0]] + ys[1..];
      [ys[0]] + Insert(x, ys[1..], key)
  }

  lemma {:induction false} InsertSorted<T>(x: T, ys: seq<T>, key: T -> int)
    requires SortedDesc(ys, key)
    ensures SortedDesc(Insert(x, ys, key), key)
    ensures forall z :: z in Insert(x, ys, key) ==> z == x || z in ys
  {
    if ys == [] || key(x) >= key(ys[0]) {
    } else {
      var rest := Insert(x, ys[1..], key);
      InsertSorted(x, ys[1..], key);
      var r := [ys[0]] + rest;
      forall i, j | 0 <= i < j < |r| ensures key(r[i]) >= key(r[j]) {
        if i == 0 {
          assert r[j] == rest[j - 1];
          assert rest[j - 1] in rest;
          if rest[j - 1] != x {
            var k :| 0 <= k < |ys[1..]| && ys[1..][k] == rest[j - 1];
            assert ys[k + 1] == rest[j - 1];
          }
        } else {
          assert r[i] == rest[i - 1] && r[j] == rest[j - 1];
        }
      }
    }
  }

  function SortByDesc<T(==)>(xs: seq<T>, key: T -> int): (r: seq<T>)
    ensures multiset(r) == multiset(xs)
    ensures |r| == |xs|
    ensures SortedDesc(r, key)
  {
    if xs == [] then []
    else
      assert xs == [xs[0]] + xs[1..];
      var r := Insert(xs[0], SortByDesc(xs[1..], key), key);
      assert |r| == |multiset(r)| == |xs|;
      InsertSorted(xs[0], SortByDesc(xs[1..], key), key);
      r
  }

  lemma {:induction false} SumInsert<T>(x: T, ys: seq<T>, key: T -> int, f: T -> int)
    ensures Sum(Insert(x, ys, key), f) == f(x) + Sum(ys, f)
  {
    if ys == [] || key(x) >= key(ys[0]) {
      SumCons(x, ys, f);
    } else {
      SumInsert(x, ys[1..], key, f);
      SumCons(ys[0], Insert(x, ys[1..], key), f);
      SumCons(ys[0], ys[1..], f);
      assert ys == [ys[0]] + ys[1..];
    }
  }

  /** Inserting adds the image of the new element to the mapped multiset. */
  lemma {:induction false} MapInsert<T, U>(x: T, ys: seq<T>, key: T -> int, f: T -> U)
    ensures multiset(Map(Insert(x, ys, key), f)) == multiset{f(x)} + multiset(Map(ys, f))
  {
    if ys == [] || key(x) >= key(ys[0]) {
      assert ([x] + ys)[1..] == ys;
    } else {
      MapInsert(x, ys[1..], key, f);
      assert ([ys[0]] + Insert(x, ys[1..], key))[1..] == Insert(x, ys[1..], key);
    }
  }

  /** Sorting permutes the image of any map. */
  lemma {:induction false} MapSort<T, U>(xs: seq<T>, key: T -> int, f: T -> U)
    ensures multiset(Map(SortByDesc(xs, key), f)) == multiset(Map(xs, f))
  {
    if xs != [] {
      MapSort(xs[1..], key, f);
      MapInsert(xs[0], SortByDesc(xs[1..], key), key, f);
    }
  }

  /** Sorting does not change a sum. */
  lemma {:induction false} SumSort<T>(xs: seq<T>, key: T -> int, f: T -> int)
    ensures Sum(SortByDesc(xs, key), f) == Sum(xs, f)
  {
    if xs != [] {
      SumSort(xs[1..], key, f);
      SumInsert(xs[0], SortByDesc(xs[1..], key), key, f);
      SumCons(xs[0], xs[1..], f);
      assert xs == [xs[0]] + xs[1..];
    }
  }

  lemma {:induction false} InsertStable<T(!new)>(x: T, ys: seq<T>, key: T -> int, p: T -> bool)
    requires forall z :: p(z) ==> key(z) == key(x)
    ensures Filter(Insert(x, ys, key), p) == Filter([x], p) + Filter(ys, p)
  {
    if ys == [] || key(x) >= key(ys[0]) {
      FilterAppend([x], ys, p);
    } else {
      InsertStable(x, ys[1..], key, p);
      assert !p(ys[0]);
      InsertPastHead(x, ys, key, p);
    }
  }

  /** Inserting past a rejected head filters like inserting into the tail. */
  lemma InsertPastHead<T(!new)>(x: T, ys: seq<T>, key: T -> int, p: T -> bool)
    requires ys != [] && key(x) < key(ys[0]) && !p(ys[0])
    requires Filter(Insert(x, ys[1..], key), p) == Filter([x], p) + Filter(ys[1..], p)
    ensures Filter(Insert(x, ys, key), p) == Filter([x], p) + Filter(ys, p)
  {
    var rest := Insert(x, ys[1..], key);
    calc {
      Filter(Insert(x, ys, key), p);
      Filter([ys[0]] + rest, p);
      { FilterDrop(ys[0], rest, p); }
      Filter(rest, p);
      Filter([x], p) + Filter(ys[1..], p);
      { FilterSkipHead(ys, p); }
      Filter([x], p) + Filter(ys, p);
    }
  }

  lemma FilterSkipHead<T(!new)>(ys: seq<T>, p: T -> bool)
    requires ys != [] && !p(ys[0])
    ensures Filter(ys, p) == Filter(ys[1..], p)
  {
    assert Filter(ys, p) == [] + Filter(ys[1..], p);
  }

  /** A rejected head leaves the filtered list unchanged. */
  lemma FilterDrop<T(!new)>(y: T, zs: seq<T>, p: T -> bool)
    requires !p(y)
    ensures Filter([y] + zs, p) == Filter(zs, p)
  {
    assert ([y] + zs)[1..] == zs;
  }

  lemma {:induction false} InsertSkip<T(!new)>(x: T, ys: seq<T>, key: T -> int, p: T -> bool)
    requires !p(x)
    ensures Filter(Insert(x, ys, key), p) == Filter(ys, p)
  {
    if ys == [] || key(x) >= key(ys[0]) {
      FilterAppend([x], ys, p);
    } else {
      InsertSkip(x, ys[1..], key, p);
      FilterAppend([ys[0]], Insert(x, ys[1..], key), p);
      FilterAppend([ys[0]], ys[1..], p);
      assert ys == [ys[0]] + ys[1..];
    }
  }

  /** The sort is stable: the elements with any one key keep their input order. */
  lemma {:induction false} SortStable<T(!new)>(xs: seq<T>, key: T -> int, k: int, p: T -> bool)
    requires forall z :: p(z) <==> key(z) == k
    ensures Filter(SortByDesc(xs, key), p) == Filter(xs, p)
  {
    if xs != [] {
      SortStable(xs[1..], key, k, p);
      FilterAppend([xs[0]], xs[1..], p);
      assert xs == [xs[0]] + xs[1..];
      if key(xs[0]) == k {
        InsertStable(xs[0], SortByDesc(xs[1..], key), key, p);
      } else {
        InsertSkip(xs[0], SortByDesc(xs[1..], key), key, p);
      }
    }
  }

  /** No two elements share a projection (a key that must stay unique). */
  predicate DistinctBy<T, U(==)>(xs: seq<T>, proj: T -> U) {
    forall i, j :: 0 <= i < j < |xs| ==> proj(xs[i]) != proj(xs[j])
  }

  lemma {:induction false} InsertDistinctBy<T, U(!new)>(x: T, ys: seq<T>, key: T -> int, proj: T -> U)
    requires DistinctBy(ys, proj)
    requires forall z :: z in ys ==> proj(z) != proj(x)
    ensures DistinctBy(Insert(x, ys, key), proj)
  {
    if ys == [] || key(x) >= key(ys[0]) {
      var r := [x] + ys;
      forall i, j | 0 <= i < j < |r| ensures proj(r[i]) != proj(r[j]) {
        assert r[j] == ys[j - 1];
        if i > 0 { assert r[i] == ys[i - 1]; } else { assert ys[j - 1] in ys; }
      }
    } else {
      var rest := Insert(x, ys[1..], key);
      assert forall z :: z in ys[1..] ==> z in ys;
      InsertDistinctBy(x, ys[1..], key, proj);
      var r := [ys[0]] + rest;
      forall i, j | 0 <= i < j < |r| ensures proj(r[i]) != proj(r[j]) {
        assert r[j] == rest[j - 1];
        if i > 0 {
          assert r[i] == rest[i - 1];
        } else {
          assert rest[j - 1] in multiset(rest);
          assert rest[j - 1] in multiset(ys[1..]) + multiset{x};
          if rest[j - 1] != x {
            var k :| 0 <= k < |ys[1..]| && ys[1..][k] == rest[j - 1];
            assert ys[k + 1] == rest[j - 1];
          } else {
            assert ys[0] in ys;
          }
        }
      }
    }
  }

  /** Sorting keeps a unique projection unique. */
  lemma {:induction false} SortDistinctBy<T, U(!new)>(xs: seq<T>, key: T -> int, proj: T -> U)
    requires DistinctBy(xs, proj)
    ensures DistinctBy(SortByDesc(xs, key), proj)
  {
    if xs != [] {
      var tail := xs[1..];
      assert DistinctBy(tail, proj) by {
        forall i, j | 0 <= i < j < |tail| ensures proj(tail[i]) != proj(tail[j]) {
          assert tail[i] == xs[i + 1] && tail[j] == xs[j + 1];
        }
      }
      SortDistinctBy(tail, key, proj);
      var sorted := SortByDesc(tail, key);
      forall z | z in sorted ensures proj(z) != proj(xs[0]) {
        assert z in multiset(sorted);
        assert z in multiset(tail);
        var k :| 0 <= k < |tail| && tail[k] == z;
        assert xs[k + 1] == z;
      }
      InsertDistinctBy(xs[0], sorted, key, proj);
    }
  }

  // ---------------------------------------------------------------------
  // Array.prototype.slice(0, n)

  /** A prefix of a list sorted by decreasing key holds the largest keys:
      nothing left out of it has a larger key than anything in it. */
  lemma SortedPrefixIsTop<T>(xs: seq<T>, n: nat, key: T -> int)
    requires SortedDesc(xs, key) && n <= |xs|
    ensures forall x, y :: x in xs[..n] && y in xs && y !in xs[..n] ==> key(y) <= key(x)
  {
    forall x, y | x in xs[..n] && y in xs && y !in xs[..n] ensures key(y) <= key(x) {
      var i :| 0 <= i < n && xs[..n][i] == x;
      var j :| 0 <= j < |xs| && xs[j] == y;
      assert forall k :: 0 <= k < n ==> xs[..n][k] == xs[k];
      assert n <= j;
    }
  }

  function Take<T>(xs: seq<T>, n: nat): (r: seq<T>)
    ensures |r| == if |xs| < n then |xs| else n
    ensures r == xs[..|r|]
  {
    if |xs| < n then xs else xs[..n]
  }
}
