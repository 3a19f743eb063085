/** Sequence operations the statistics are built from: `filter` by a key,
    the keys of a JavaScript object used as a dictionary (insertion order),
    the stable descending `sort` and `slice(0, n)`. */
module Collections {

  predicate Distinct<K(==)>(ks: seq<K>) {
    forall i, j :: 0 <= i < j < |ks| ==> ks[i] != ks[j]
  }

  function Min(a: int, b: int): int {
    if a <= b then a else b
  }

  // ---------------------------------------------------------------------
  // filter(x => key(x) === k)
  // ---------------------------------------------------------------------

  /** A prefix one element longer is the prefix followed by that element. */
  lemma PrefixSnoc<T>(xs: seq<T>, i: nat)
    requires i < |xs|
    ensures xs[..i + 1] == xs[..i] + [xs[i]]
  {
  }

  lemma PrefixFull<T>(xs: seq<T>)
    ensures xs[..|xs|] == xs
  {
  }

  /** The elements of `xs` whose key is `k`, in their original order. */
  function Where<T, K(==)>(xs: seq<T>, key: T -> K, k: K): (r: seq<T>)
    ensures |r| <= |xs|
    ensures forall i :: 0 <= i < |r| ==> key(r[i]) == k
  {
    if xs == [] then []
    else Where(xs[..|xs| - 1], key, k) + (if key(xs[|xs| - 1]) == k then [xs[|xs| - 1]] else [])
  }

  /** The positions of `xs` whose element has key `k`. */
  function Positions<T, K(==)>(xs: seq<T>, key: T -> K, k: K): set<int> {
    set i | 0 <= i < |xs| && key(xs[i]) == k
  }

  /** The filter keeps one element per position whose key is `k`. */
  lemma {:induction false} WhereSize<T, K>(xs: seq<T>, key: T -> K, k: K)
    ensures |Where(xs, key, k)| == |Positions(xs, key, k)|
  {
    if xs != [] {
      var n := |xs| - 1;
      WhereSize(xs[..n], key, k);
      var before := Positions(xs[..n], key, k);
      var after := Positions(xs, key, k);
      assert before == set i | 0 <= i < n && key(xs[i]) == k;
      if key(xs[n]) == k {
        assert after == before + {n};
      } else {
        assert after == before;
      }
    }
  }

  lemma WhereSnoc<T, K>(xs: seq<T>, x: T, key: T -> K, k: K)
    ensures Where(xs + [x], key, k) == Where(xs, key, k) + (if key(x) == k then [x] else [])
  {
    assert (xs + [x])[..|xs|] == xs;
  }

  /** Every element of `xs` with key `k` is kept: nothing is lost by the filter. */
  lemma {:induction false} WhereComplete<T, K>(xs: seq<T>, key: T -> K, i: nat)
    requires i < |xs|
    ensures xs[i] in Where(xs, key, key(xs[i]))
  {
    var n := |xs| - 1;
    if i < n {
      WhereComplete(xs[..n], key, i);
    }
  }

  /** The filter keeps only elements of `xs`. */
  lemma {:induction false} WhereSound<T, K>(xs: seq<T>, key: T -> K, k: K, x: T)
    requires x in Where(xs, key, k)
    ensures x in xs && key(x) == k
  {
    if xs != [] {
      var n := |xs| - 1;
      if x in Where(xs[..n], key, k) {
        WhereSound(xs[..n], key, k, x);
      }
    }
  }

  // ---------------------------------------------------------------------
  // The keys of a dictionary filled by one pass over `xs`
  // ---------------------------------------------------------------------

  /** Each key that occurs in `xs`, once, in order of first occurrence: the
      order in which a dictionary filled by a pass over `xs` lists its keys. */
  function FirstOccurrence<T, K(==)>(xs: seq<T>, key: T -> K): (ks: seq<K>)
    ensures Distinct(ks)
    ensures forall i :: 0 <= i < |xs| ==> key(xs[i]) in ks
    ensures forall j :: 0 <= j < |ks| ==> Where(xs, key, ks[j]) != []
  {
    if xs == [] then []
    else
      var n := |xs| - 1;
      var ks := FirstOccurrence(xs[..n], key);
      assert forall i :: 0 <= i < n ==> xs[..n][i] == xs[i];
      if key(xs[n]) in ks then ks else ks + [key(xs[n])]
  }

  lemma FirstOccurrenceSnoc<T, K>(xs: seq<T>, x: T, key: T -> K)
    ensures FirstOccurrence(xs + [x], key)
         == if key(x) in FirstOccurrence(xs, key) then FirstOccurrence(xs, key)
            else FirstOccurrence(xs, key) + [key(x)]
  {
    assert (xs + [x])[..|xs|] == xs;
  }

  /** A key that no element has selects nothing. */
  lemma {:induction false} WhereNone<T, K>(xs: seq<T>, key: T -> K, k: K)
    requires forall i :: 0 <= i < |xs| ==> key(xs[i]) != k
    ensures Where(xs, key, k) == []
  {
    if xs != [] {
      WhereNone(xs[..|xs| - 1], key, k);
    }
  }

  lemma WhereAbsent<T, K>(xs: seq<T>, key: T -> K, k: K)
    requires k !in FirstOccurrence(xs, key)
    ensures Where(xs, key, k) == []
  {
    WhereNone(xs, key, k);
  }

  // ---------------------------------------------------------------------
  // Group sizes add up to the whole
  // ---------------------------------------------------------------------

  /** The sum, over the keys `ks`, of the number of elements with that key. */
  function SumOfSizes<T, K(==)>(xs: seq<T>, key: T -> K, ks: seq<K>): nat {
    if ks == [] then 0 else |Where(xs, key, ks[0])| + SumOfSizes(xs, key, ks[1..])
  }

  function Occurrences<K(==)>(ks: seq<K>, k: K): nat {
    if ks == [] then 0 else (if ks[0] == k then 1 else 0) + Occurrences(ks[1..], k)
  }

  lemma {:induction false} OccursOnce<K>(ks: seq<K>, k: K)
    requires Distinct(ks) && k in ks
    ensures Occurrences(ks, k) == 1
  {
    if ks[0] == k {
      Absent(ks[1..], k);
    } else {
      OccursOnce(ks[1..], k);
    }
  }

  lemma {:induction false} Absent<K>(ks: seq<K>, k: K)
    requires k !in ks
    ensures Occurrences(ks, k) == 0
  {
    if ks != [] {
      Absent(ks[1..], k);
    }
  }

  lemma {:induction false} SumOfSizesSnoc<T, K>(xs: seq<T>, x: T, key: T -> K, ks: seq<K>)
    ensures SumOfSizes(xs + [x], key, ks) == SumOfSizes(xs, key, ks) + Occurrences(ks, key(x))
  {
    if ks != [] {
      WhereSnoc(xs, x, key, ks[0]);
      SumOfSizesSnoc(xs, x, key, ks[1..]);
    }
  }

  lemma {:induction false} SumOfSizesNil<T, K>(key: T -> K, ks: seq<K>)
    ensures SumOfSizes([], key, ks) == 0
  {
    if ks != [] {
      SumOfSizesNil(key, ks[1..]);
    }
  }

  /** When the keys `ks` are distinct and cover every element, the groups
      they select partition `xs`: their sizes add up to `|xs|`. */
  lemma {:induction false} PartitionSum<T, K>(xs: seq<T>, key: T -> K, ks: seq<K>)
    requires Distinct(ks)
    requires forall i :: 0 <= i < |xs| ==> key(xs[i]) in ks
    ensures SumOfSizes(xs, key, ks) == |xs|
  {
    if xs == [] {
      SumOfSizesNil(key, ks);
    } else {
      var n := |xs| - 1;
      assert forall i :: 0 <= i < n ==> xs[..n][i] == xs[i];
      PartitionSum(xs[..n], key, ks);
      SumOfSizesSnoc(xs[..n], xs[n], key, ks);
      OccursOnce(ks, key(xs[n]));
      assert xs[..n] + [xs[n]] == xs;
    }
  }

  /** The groups of a dictionary filled by one pass over `xs` hold, between them, every element once. */
  lemma GroupSizesSum<T, K>(xs: seq<T>, key: T -> K)
    ensures SumOfSizes(xs, key, FirstOccurrence(xs, key)) == |xs|
  {
    PartitionSum(xs, key, FirstOccurrence(xs, key));
  }

  /** The sum of `f` over `vs`. */
  function SumBy<V>(vs: seq<V>, f: V -> int): int {
    if vs == [] then 0 else f(vs[0]) + SumBy(vs[1..], f)
  }

  lemma {:induction false} SumBySnoc<V>(vs: seq<V>, v: V, f: V -> int)
    ensures SumBy(vs + [v], f) == SumBy(vs, f) + f(v)
  {
    if vs != [] {
      assert (vs + [v])[1..] == vs[1..] + [v];
      SumBySnoc(vs[1..], v, f);
    }
  }

  /** A sequence of per-key records whose `f` is the size of its key's group sums as the groups do. */
  lemma {:induction false} SumByGroups<T, K, V>(xs: seq<T>, key: T -> K, ks: seq<K>, vs: seq<V>, f: V -> int)
    requires |vs| == |ks|
    requires forall i :: 0 <= i < |ks| ==> f(vs[i]) == |Where(xs, key, ks[i])|
    ensures SumBy(vs, f) == SumOfSizes(xs, key, ks)
  {
    if ks != [] {
      SumByGroups(xs, key, ks[1..], vs[1..], f);
    }
  }

  // ---------------------------------------------------------------------
  // sort((a, b) => key(b) - key(a)) and slice(0, n)
  // ---------------------------------------------------------------------

  predicate SortedDesc<T>(xs: seq<T>, key: T -> int) {
    forall i, j :: 0 <= i < j < |xs| ==> key(xs[i]) >= key(xs[j])
  }

  /** `x` placed before the first element of `ys` whose key is not above its own. */
  function Insert<T>(x: T, ys: seq<T>, key: T -> int): (r: seq<T>)
    ensures multiset(r) == multiset(ys) + multiset{x}
  {
    if ys == [] || key(ys[0]) <= key(x) then [x] + ys
    else
      assert ys == [ys[0]] + ys[1..];
      [ys[0]] + Insert(x, ys[1..], key)
  }

  lemma {:induction false} InsertSorted<T>(x: T, ys: seq<T>, key: T -> int)
    requires SortedDesc(ys, key)
    ensures SortedDesc(Insert(x, ys, key), key)
    ensures Insert(x, ys, key)[0] == if ys == [] || key(ys[0]) <= key(x) then x else ys[0]
  {
    if ys != [] && key(ys[0]) > key(x) {
      var rest := Insert(x, ys[1..], key);
      InsertSorted(x, ys[1..], key);
      assert key(rest[0]) <= key(ys[0]) by {
        if ys[1..] != [] {
          assert ys[1..][0] == ys[1];
        }
      }
      var r := [ys[0]] + rest;
      forall k, l | 0 <= k < l < |r|
        ensures key(r[k]) >= key(r[l])
      {
        if k == 0 && l > 1 {
          assert key(rest[0]) >= key(rest[l - 1]);
        }
      }
    }
  }

  /** A stable sort into non-increasing key order: elements with equal keys
      keep their relative order, as in the JavaScript engines' `Array.prototype.sort`. */
  function SortDesc<T>(xs: seq<T>, key: T -> int): (r: seq<T>)
    ensures multiset(r) == multiset(xs)
    ensures SortedDesc(r, key)
  {
    if xs == [] then []
    else
      assert xs == [xs[0]] + xs[1..];
      var sorted := SortDesc(xs[1..], key);
      InsertSorted(xs[0], sorted, key);
      Insert(xs[0], sorted, key)
  }

  /** Filtering a sequence that starts with `x`: `x` first when it is kept. */
  lemma {:induction false} WhereCons<T, K>(x: T, ys: seq<T>, key: T -> K, k: K)
    ensures Where([x] + ys, key, k) == (if key(x) == k then [x] else []) + Where(ys, key, k)
  {
    if ys != [] {
      var n := |ys| - 1;
      var zs := [x] + ys;
      assert zs[..|zs| - 1] == [x] + ys[..n];
      assert zs[|zs| - 1] == ys[n];
      WhereCons(x, ys[..n], key, k);
    }
  }

  /** Inserting `x` puts it before every element of its own key: the
      elements `Insert` passes over all have larger keys. */
  lemma {:induction false} InsertWhere<T>(x: T, ys: seq<T>, key: T -> int, k: int)
    ensures Where(Insert(x, ys, key), key, k) == (if key(x) == k then [x] else []) + Where(ys, key, k)
  {
    if ys == [] || key(ys[0]) <= key(x) {
      WhereCons(x, ys, key, k);
    } else {
      // `ys[0]` has a larger key than `x`, so at most one of the two is kept.
      var y, rest := ys[0], ys[1..];
      assert ys == [y] + rest;
      assert Insert(x, ys, key) == [y] + Insert(x, rest, key);
      InsertWhere(x, rest, key, k);
      WhereCons(y, Insert(x, rest, key), key, k);
      WhereCons(y, rest, key, k);
      assert key(y) != k || key(x) != k;
    }
  }

  /** The sort is stable: for every key, the elements with that key come
      out in the order they went in. */
  lemma {:induction false} SortDescStable<T>(xs: seq<T>, key: T -> int)
    ensures forall k :: Where(SortDesc(xs, key), key, k) == Where(xs, key, k)
  {
    if xs != [] {
      assert xs == [xs[0]] + xs[1..];
      SortDescStable(xs[1..], key);
      forall k
        ensures Where(SortDesc(xs, key), key, k) == Where(xs, key, k)
      {
        InsertWhere(xs[0], SortDesc(xs[1..], key), key, k);
        WhereCons(xs[0], xs[1..], key, k);
      }
    }
  }

  /** Inserting an element not yet present into a list without repeats gives
      a list without repeats. */
  lemma {:induction false} InsertDistinct<T>(x: T, ys: seq<T>, key: T -> int)
    requires Distinct(ys) && x !in ys
    ensures Distinct(Insert(x, ys, key))
  {
    if ys != [] && key(ys[0]) > key(x) {
      var y, rest := ys[0], ys[1..];
      assert ys == [y] + rest;
      InsertDistinct(x, rest, key);
      var r := Insert(x, rest, key);
      assert y !in r by {
        assert y != x && y !in rest;
        assert y !in multiset(rest) + multiset{x};
        assert y !in multiset(r);
      }
      assert Insert(x, ys, key) == [y] + r;
    }
  }

  /** Sorting never repeats an element. */
  lemma {:induction false} SortDescDistinct<T>(xs: seq<T>, key: T -> int)
    requires Distinct(xs)
    ensures Distinct(SortDesc(xs, key))
  {
    if xs != [] {
      assert xs == [xs[0]] + xs[1..];
      SortDescDistinct(xs[1..], key);
      assert xs[0] !in SortDesc(xs[1..], key) by {
        assert xs[0] !in multiset(xs[1..]);
      }
      InsertDistinct(xs[0], SortDesc(xs[1..], key), key);
    }
  }

  /** `xs.slice(0, n)`. */
  function Take<T>(xs: seq<T>, n: nat): (r: seq<T>)
    ensures |r| == Min(n, |xs|) && r == xs[..|r|]
  {
    if |xs| <= n then xs else xs[..n]
  }

  /** The first `n` of a descending sort: at most `n` elements of `xs`, in non-increasing key order. */
  lemma TopSorted<T>(xs: seq<T>, key: T -> int, n: nat)
    ensures var r := Take(SortDesc(xs, key), n);
      && |r| <= n && SortedDesc(r, key) && forall y :: y in r ==> y in xs
  {
    var s := SortDesc(xs, key);
    var r := Take(s, n);
    forall y | y in r
      ensures y in xs
    {
      assert y in multiset(s);
    }
  }

  /** The first `n` of a descending sort are the `n` largest: any element left
      out has a key no greater than the key of any element kept. */
  lemma TopIsLargest<T>(xs: seq<T>, key: T -> int, n: nat, x: T, y: T)
    requires x in xs && x !in Take(SortDesc(xs, key), n)
    requires y in Take(SortDesc(xs, key), n)
    ensures key(y) >= key(x)
  {
    var s := SortDesc(xs, key);
    assert x in multiset(s);
    var j :| 0 <= j < |s| && s[j] == x;
    var i :| 0 <= i < |Take(s, n)| && Take(s, n)[i] == y;
    assert j >= n;
  }

  // ---------------------------------------------------------------------
  // A JavaScript object used as a dictionary
  // ---------------------------------------------------------------------

  /** A plain object used as a dictionary: its entries and its keys in
      insertion order (the order `Object.values` reports them in, for keys
      that are not array indices). */
  datatype Dict<K(==,!new), V> = Dict(keys: seq<K>, entries: map<K, V>) {

    ghost predicate Valid() {
      Distinct(keys) && (forall k :: k in entries <==> k in keys)
    }

    /** `Object.values(dict)`. */
    function Values(): (vs: seq<V>)
      requires Valid()
      ensures |vs| == |keys| && forall i :: 0 <= i < |keys| ==> vs[i] == entries[keys[i]]
    {
      seq(|keys|, i requires 0 <= i < |keys| => entries[keys[i]])
    }

    /** `dict[k] = v`: a new key goes to the end of the order, an old one keeps its place. */
    function Put(k: K, v: V): (d: Dict<K, V>)
      requires Valid()
      ensures d.Valid()
      ensures d.entries == entries[k := v]
      ensures d.keys == if k in entries then keys else keys + [k]
    {
      if k in entries then Dict(keys, entries[k := v]) else Dict(keys + [k], entries[k := v])
    }
  }

  /** `d` is what a pass over `seen` leaves: one entry per key met, in order
      of first appearance, holding `tally` of that key's elements. */
  ghost predicate Tallied<T, K(!new), V>(d: Dict<K, V>, seen: seq<T>, key: T -> K, tally: (seq<T>, K) -> V) {
    && d.Valid()
    && d.keys == FirstOccurrence(seen, key)
    && forall k :: k in d.entries ==> d.entries[k] == tally(Where(seen, key, k), k)
  }

  /** A key the pass has not met yet has an empty group. */
  lemma TalliedFresh<T, K(!new), V>(d: Dict<K, V>, seen: seq<T>, key: T -> K, tally: (seq<T>, K) -> V, k: K)
    requires Tallied(d, seen, key, tally) && k !in d.entries
    ensures Where(seen, key, k) == []
  {
    WhereAbsent(seen, key, k);
  }

  /** One step of the pass: storing, under the key of `x`, the tally of that
      key's group extended by `x` gives the dictionary of `seen + [x]`. */
  lemma TalliedStep<T, K(!new), V>(d: Dict<K, V>, seen: seq<T>, x: T, key: T -> K, tally: (seq<T>, K) -> V, v: V)
    requires Tallied(d, seen, key, tally)
    requires v == tally(Where(seen, key, key(x)) + [x], key(x))
    ensures Tallied(d.Put(key(x), v), seen + [x], key, tally)
  {
    var d' := d.Put(key(x), v);
    FirstOccurrenceSnoc(seen, x, key);
    assert d'.keys == FirstOccurrence(seen + [x], key);
    WhereSnoc(seen, x, key, key(x));
    forall k | k in d'.entries
      ensures d'.entries[k] == tally(Where(seen + [x], key, k), k)
    {
      if k != key(x) {
        WhereSnoc(seen, x, key, k);
        var g := Where(seen, key, k);
        assert Where(seen + [x], key, k) == g;
        assert d'.entries[k] == d.entries[k] == tally(g, k);
      }
    }
  }

  /** The tallies of every key of `xs`, in order of first appearance. */
  function TallyAll<T, K(==), V>(xs: seq<T>, key: T -> K, tally: (seq<T>, K) -> V): (vs: seq<V>)
    ensures |vs| == |FirstOccurrence(xs, key)|
  {
    var ks := FirstOccurrence(xs, key);
    seq(|ks|, i requires 0 <= i < |ks| => tally(Where(xs, key, ks[i]), ks[i]))
  }

  /** After the whole pass, `Object.values` lists the tallies in order of first appearance. */
  lemma TalliedValues<T, K(!new), V>(d: Dict<K, V>, xs: seq<T>, key: T -> K, tally: (seq<T>, K) -> V)
    requires Tallied(d, xs, key, tally)
    ensures d.Values() == TallyAll(xs, key, tally)
  {
  }

  function EmptyDict<K(==,!new), V>(): (d: Dict<K, V>)
    ensures d.Valid() && d.keys == [] && d.entries == map[]
  {
    Dict([], map[])
  }
}
