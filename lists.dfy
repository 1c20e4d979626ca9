/**
 * List operations the Python code gets from the language: the stable
 * `list.sort(key=...)`, comprehension filters, dicts built from pairs (the
 * last pair of a key wins) and counting dicts kept in first-occurrence order.
 */
module Lists {
  /** `le` is a total preorder: any two elements compare, and comparisons chain. */
  ghost predicate TotalPreorder<T(!new)>(le: (T, T) -> bool)
  {
    (forall a, b :: le(a, b) || le(b, a)) &&
    (forall a, b, c :: le(a, b) && le(b, c) ==> le(a, c))
  }

  predicate SortedBy<T(!new)>(s: seq<T>, le: (T, T) -> bool)
  {
    forall i, j :: 0 <= i < j < |s| ==> le(s[i], s[j])
  }

  /** Inserts `x` after every element that may precede it, so equal keys keep their order. */
  function Insert<T(!new)>(s: seq<T>, x: T, le: (T, T) -> bool): (r: seq<T>)
    ensures |r| == |s| + 1
    ensures multiset(r) == multiset(s) + multiset{x}
  {
    if s == [] then [x]
    else if le(s[|s| - 1], x) then s + [x]
    else
      assert s == s[..|s| - 1] + [s[|s| - 1]];
      Insert(s[..|s| - 1], x, le) + [s[|s| - 1]]
  }

  /** Python's stable sort, ascending by `le`; `reverse=True` is the sort by the converse order. */
  function SortBy<T(!new)>(s: seq<T>, le: (T, T) -> bool): (r: seq<T>)
    ensures |r| == |s|
    ensures multiset(r) == multiset(s)
  {
    if s == [] then []
    else
      assert s == s[..|s| - 1] + [s[|s| - 1]];
      Insert(SortBy(s[..|s| - 1], le), s[|s| - 1], le)
  }

  /** Appending an element that every element may precede keeps a list ordered. */
  lemma SnocSorted<T(!new)>(r: seq<T>, y: T, le: (T, T) -> bool)
    requires SortedBy(r, le)
    requires forall i :: 0 <= i < |r| ==> le(r[i], y)
    ensures SortedBy(r + [y], le)
  {
    var t := r + [y];
    forall i, j | 0 <= i < j < |t|
      ensures le(t[i], t[j])
    {
      if j < |r| {
        assert t[i] == r[i] && t[j] == r[j];
      } else {
        assert t[i] == r[i];
      }
    }
  }

  /** Every element of `Insert(init, x)` may precede `last`, when `x` and all of `init` may. */
  lemma InsertBelow<T(!new)>(init: seq<T>, x: T, last: T, le: (T, T) -> bool)
    requires le(x, last)
    requires forall k :: 0 <= k < |init| ==> le(init[k], last)
    ensures forall i :: 0 <= i < |Insert(init, x, le)| ==> le(Insert(init, x, le)[i], last)
  {
    var r := Insert(init, x, le);
    forall i | 0 <= i < |r|
      ensures le(r[i], last)
    {
      assert r[i] in multiset(init) + multiset{x};
      if r[i] in init {
        var k :| 0 <= k < |init| && init[k] == r[i];
      }
    }
  }

  lemma {:induction false} InsertSorted<T(!new)>(s: seq<T>, x: T, le: (T, T) -> bool)
    requires TotalPreorder(le) && SortedBy(s, le)
    ensures SortedBy(Insert(s, x, le), le)
  {
    if s != [] {
      var init, last := s[..|s| - 1], s[|s| - 1];
      if le(last, x) {
        SnocSorted(s, x, le);
      } else {
        assert SortedBy(init, le);
        InsertSorted(init, x, le);
        assert forall k :: 0 <= k < |init| ==> le(init[k], last) by {
          forall k | 0 <= k < |init| ensures le(init[k], last) {
            assert init[k] == s[k];
          }
        }
        InsertBelow(init, x, last, le);
        SnocSorted(Insert(init, x, le), last, le);
      }
    }
  }

  /** The sort orders its result. */
  lemma {:induction false} SortBySorted<T(!new)>(s: seq<T>, le: (T, T) -> bool)
    requires TotalPreorder(le)
    ensures SortedBy(SortBy(s, le), le)
  {
    if s != [] {
      SortBySorted(s[..|s| - 1], le);
      InsertSorted(SortBy(s[..|s| - 1], le), s[|s| - 1], le);
    }
  }

  /** The sort keeps exactly the elements it was given. */
  lemma SortByMembers<T(!new)>(s: seq<T>, le: (T, T) -> bool, x: T)
    ensures x in SortBy(s, le) <==> x in s
  {
    var r := SortBy(s, le);
    assert x in r <==> x in multiset(r);
    assert x in s <==> x in multiset(s);
  }

  /** On an already ordered list the sort changes nothing. */
  lemma {:induction false} SortByOrdered<T(!new)>(s: seq<T>, le: (T, T) -> bool)
    requires SortedBy(s, le)
    ensures SortBy(s, le) == s
  {
    if s != [] {
      var init := s[..|s| - 1];
      assert SortedBy(init, le);
      SortByOrdered(init, le);
      if |init| > 0 {
        assert le(init[|init| - 1], s[|s| - 1]);
      }
    }
  }

  /** `[x for x in s if p(x)]`. */
  function Filter<T(!new)>(s: seq<T>, p: T -> bool): (r: seq<T>)
    ensures |r| <= |s|
    ensures forall x :: x in r <==> x in s && p(x)
  {
    if s == [] then []
    else Filter(s[..|s| - 1], p) + (if p(s[|s| - 1]) then [s[|s| - 1]] else [])
  }

  /** A one-element sequence keeps its element exactly when it passes. */
  lemma FilterSingle<T(!new)>(x: T, p: T -> bool)
    ensures Filter([x], p) == if p(x) then [x] else []
  {
    assert [x][..0] == [];
  }

  /** Filtering a concatenation filters each part. */
  lemma {:induction false} FilterConcat<T(!new)>(s: seq<T>, t: seq<T>, p: T -> bool)
    ensures Filter(s + t, p) == Filter(s, p) + Filter(t, p)
  {
    if t == [] {
      assert s + t == s;
    } else {
      var init := t[..|t| - 1];
      assert (s + t)[..|s + t| - 1] == s + init;
      FilterConcat(s, init, p);
    }
  }

  /** A filter keeps the relative order of what it keeps. */
  lemma {:induction false} FilterSubsequence<T(!new)>(s: seq<T>, p: T -> bool, x: T, y: T)
    requires forall i, j :: 0 <= i < j < |s| ==> s[i] != s[j]
    requires x in Filter(s, p) && y in Filter(s, p)
    ensures (exists i, j :: 0 <= i < j < |Filter(s, p)| && Filter(s, p)[i] == x && Filter(s, p)[j] == y) ==>
      exists i, j :: 0 <= i < j < |s| && s[i] == x && s[j] == y
  {
    var f := Filter(s, p);
    if exists i, j :: 0 <= i < j < |f| && f[i] == x && f[j] == y {
      var i, j :| 0 <= i < j < |f| && f[i] == x && f[j] == y;
      var init := s[..|s| - 1];
      var fi := Filter(init, p);
      assert forall a, b :: 0 <= a < b < |init| ==> init[a] != init[b];
      if j < |fi| {
        FilterSubsequence(init, p, x, y);
        var a, b :| 0 <= a < b < |init| && init[a] == x && init[b] == y;
        assert s[a] == x && s[b] == y;
      } else {
        assert y == s[|s| - 1];
        assert x in init by {
          assert fi[i] == x;
        }
        var a :| 0 <= a < |init| && init[a] == x;
        assert s[a] == x;
      }
    }
  }

  /** `{k: v for (k, v) in pairs}`: the last pair of each key wins. */
  function ToMap<K(==,!new), V>(pairs: seq<(K, V)>): (m: map<K, V>)
    ensures |pairs| > 0 ==> pairs[|pairs| - 1].0 in m
  {
    if pairs == [] then map[]
    else
      var last := pairs[|pairs| - 1];
      ToMap(pairs[..|pairs| - 1])[last.0 := last.1]
  }

  /** A key is in the dict iff some pair carries it. */
  lemma {:induction false} ToMapKeys<K(!new), V>(pairs: seq<(K, V)>, k: K)
    ensures k in ToMap(pairs) <==> exists i :: 0 <= i < |pairs| && pairs[i].0 == k
  {
    if pairs != [] {
      var init := pairs[..|pairs| - 1];
      ToMapKeys(init, k);
      if exists i :: 0 <= i < |init| && init[i].0 == k {
        var i :| 0 <= i < |init| && init[i].0 == k;
        assert pairs[i].0 == k;
      }
    }
  }

  /** The value of a key is the one of its last pair. */
  lemma {:induction false} ToMapLast<K(!new), V>(pairs: seq<(K, V)>, i: int)
    requires 0 <= i < |pairs|
    requires forall j :: i < j < |pairs| ==> pairs[j].0 != pairs[i].0
    ensures pairs[i].0 in ToMap(pairs) && ToMap(pairs)[pairs[i].0] == pairs[i].1
  {
    if i < |pairs| - 1 {
      ToMapLast(pairs[..|pairs| - 1], i);
    }
  }

  /** The count kept for `k` in a first-occurrence counting list, or 0. */
  function CountOf<K(==,!new)>(cs: seq<(K, nat)>, k: K): nat
  {
    if cs == [] then 0
    else if cs[|cs| - 1].0 == k then cs[|cs| - 1].1
    else CountOf(cs[..|cs| - 1], k)
  }

  /** `d[k] = d.get(k, 0) + 1` on a dict kept as its items in insertion order. */
  function Bump<K(==,!new)>(cs: seq<(K, nat)>, k: K): (r: seq<(K, nat)>)
  {
    if cs == [] then [(k, 1)]
    else if cs[|cs| - 1].0 == k then cs[..|cs| - 1] + [(k, cs[|cs| - 1].1 + 1)]
    else Bump(cs[..|cs| - 1], k) + [cs[|cs| - 1]]
  }

  /** The counting dict of `xs`, as its items in first-occurrence order. */
  function Counts<K(==,!new)>(xs: seq<K>): seq<(K, nat)>
  {
    if xs == [] then [] else Bump(Counts(xs[..|xs| - 1]), xs[|xs| - 1])
  }

  function Total<K(==,!new)>(cs: seq<(K, nat)>): nat
  {
    if cs == [] then 0 else Total(cs[..|cs| - 1]) + cs[|cs| - 1].1
  }

  lemma {:induction false} BumpTotal<K(!new)>(cs: seq<(K, nat)>, k: K)
    ensures Total(Bump(cs, k)) == Total(cs) + 1
  {
    if cs != [] && cs[|cs| - 1].0 != k {
      BumpTotal(cs[..|cs| - 1], k);
      var b := Bump(cs[..|cs| - 1], k);
      assert (b + [cs[|cs| - 1]])[..|b|] == b;
    } else if cs != [] {
      var p := cs[..|cs| - 1] + [(k, cs[|cs| - 1].1 + 1)];
      assert p[..|p| - 1] == cs[..|cs| - 1];
    }
  }

  lemma {:induction false} BumpCount<K(!new)>(cs: seq<(K, nat)>, k: K, j: K)
    ensures CountOf(Bump(cs, k), j) == CountOf(cs, j) + (if j == k then 1 else 0)
  {
    if cs != [] {
      var init, last := cs[..|cs| - 1], cs[|cs| - 1];
      if last.0 == k {
        var p := init + [(k, last.1 + 1)];
        assert p[..|p| - 1] == init;
      } else {
        BumpCount(init, k, j);
        var b := Bump(init, k);
        assert (b + [last])[..|b|] == b;
      }
    }
  }

  /** The counts of a counting dict add up to the number of elements counted. */
  lemma {:induction false} CountsTotal<K(!new)>(xs: seq<K>)
    ensures Total(Counts(xs)) == |xs|
  {
    if xs != [] {
      CountsTotal(xs[..|xs| - 1]);
      BumpTotal(Counts(xs[..|xs| - 1]), xs[|xs| - 1]);
    }
  }

  /** Each key's count is its number of occurrences. */
  lemma {:induction false} CountsCount<K(!new)>(xs: seq<K>, k: K)
    ensures CountOf(Counts(xs), k) == multiset(xs)[k]
  {
    if xs != [] {
      var init := xs[..|xs| - 1];
      CountsCount(init, k);
      BumpCount(Counts(init), xs[|xs| - 1], k);
      assert xs == init + [xs[|xs| - 1]];
    }
  }

  lemma {:induction false} InsertTotal<K(!new)>(cs: seq<(K, nat)>, x: (K, nat), le: ((K, nat), (K, nat)) -> bool)
    ensures Total(Insert(cs, x, le)) == Total(cs) + x.1
  {
    if cs != [] && !le(cs[|cs| - 1], x) {
      InsertTotal(cs[..|cs| - 1], x, le);
      var r := Insert(cs[..|cs| - 1], x, le);
      assert (r + [cs[|cs| - 1]])[..|r|] == r;
    } else if cs != [] {
      assert (cs + [x])[..|cs|] == cs;
    }
  }

  /** Sorting a counting list keeps the total. */
  lemma {:induction false} SortByTotal<K(!new)>(cs: seq<(K, nat)>, le: ((K, nat), (K, nat)) -> bool)
    ensures Total(SortBy(cs, le)) == Total(cs)
  {
    if cs != [] {
      SortByTotal(cs[..|cs| - 1], le);
      InsertTotal(SortBy(cs[..|cs| - 1], le), cs[|cs| - 1], le);
    }
  }
}
