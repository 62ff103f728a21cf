/**
 * List operations with Python's meaning: slicing `s[:n]`,
 * `sorted(s, key=..., reverse=...)` (a STABLE sort), filtering
 * comprehensions, first-occurrence de-duplication (the key order of a
 * `Counter` or a `dict`), and `list(some_set)`, whose order Python
 * leaves unspecified.
 */
module Sequences {

  function Min(a: int, b: int): int { if a <= b then a else b }
  function Max(a: int, b: int): int { if a >= b then a else b }

  /** `s[:n]` for any integer `n`, negative `n` counting from the end. */
  function Take<T>(s: seq<T>, n: int): (r: seq<T>)
    ensures r <= s
    ensures n >= 0 ==> |r| == Min(n, |s|)
    ensures n < 0 ==> |r| == Max(0, |s| + n)
  {
    if n >= 0 then (if n <= |s| then s[..n] else s)
    else if |s| + n >= 0 then s[..|s| + n]
    else []
  }

  /** `[x for x in s if p(x)]`. */
  function Filter<T>(s: seq<T>, p: T -> bool): (r: seq<T>)
    ensures |r| <= |s|
  {
    if s == [] then []
    else (if p(s[0]) then [s[0]] else []) + Filter(s[1..], p)
  }

  /** What `Filter` keeps comes from `s` and passes `p`. */
  lemma {:induction false} FilterMembers<T>(s: seq<T>, p: T -> bool)
    ensures forall x :: x in Filter(s, p) ==> x in s && p(x)
  {
    if s != [] {
      FilterMembers(s[1..], p);
    }
  }

  lemma {:induction false} FilterAppend<T>(a: seq<T>, b: seq<T>, p: T -> bool)
    ensures Filter(a + b, p) == Filter(a, p) + Filter(b, p)
    decreases |a|
  {
    if a != [] {
      assert (a + b)[0] == a[0];
      assert (a + b)[1..] == a[1..] + b;
      FilterAppend(a[1..], b, p);
    } else {
      assert a + b == b;
    }
  }

  /** Filtering a list built one element at a time, seen from its last element. */
  lemma FilterSnoc<T>(a: seq<T>, x: T, p: T -> bool)
    ensures Filter(a + [x], p) == Filter(a, p) + (if p(x) then [x] else [])
  {
    FilterAppend(a, [x], p);
  }

  predicate Distinct<T(==)>(s: seq<T>)
  {
    forall i, j :: 0 <= i < j < |s| ==> s[i] != s[j]
  }

  function Elements<T(==)>(s: seq<T>): set<T>
  {
    set x | x in s
  }

  /** The distinct elements of `s` in order of first occurrence. */
  function Dedup<T(==)>(s: seq<T>): (r: seq<T>)
    ensures Distinct(r)
    ensures Elements(r) == Elements(s)
  {
    if s == [] then []
    else
      var d := Dedup(s[..|s| - 1]);
      assert s == s[..|s| - 1] + [s[|s| - 1]];
      assert Elements(s) == Elements(s[..|s| - 1]) + {s[|s| - 1]};
      if s[|s| - 1] in d then d
      else
        assert Elements(d + [s[|s| - 1]]) == Elements(d) + {s[|s| - 1]};
        d + [s[|s| - 1]]
  }

  /** How often `x` occurs in `s`. */
  function Count<T(==)>(s: seq<T>, x: T): nat
  {
    multiset(s)[x]
  }

  // ---------------------------------------------------------------------
  // sorted(s, key=key, reverse=True): a stable sort on a real-valued key
  // ---------------------------------------------------------------------

  function InsertDesc<T>(x: T, s: seq<T>, key: T -> real): (r: seq<T>)
    ensures |r| == |s| + 1
  {
    if s == [] then [x]
    else if key(x) >= key(s[0]) then [x] + s
    else [s[0]] + InsertDesc(x, s[1..], key)
  }

  /**
   * `sorted(s, key=key, reverse=True)`. Insertion from the front puts each
   * element before the equal keys that followed it in `s`, so equal keys keep
   * their original order.
   */
  function SortDesc<T>(s: seq<T>, key: T -> real): (r: seq<T>)
    ensures |r| == |s|
  {
    if s == [] then [] else InsertDesc(s[0], SortDesc(s[1..], key), key)
  }

  predicate SortedDesc<T>(s: seq<T>, key: T -> real)
  {
    forall i, j :: 0 <= i < j < |s| ==> key(s[i]) >= key(s[j])
  }

  /** The elements of `s` whose key is `k`, in their order in `s`. */
  function KeyFilter<T>(s: seq<T>, key: T -> real, k: real): seq<T>
  {
    if s == [] then []
    else (if key(s[0]) == k then [s[0]] else []) + KeyFilter(s[1..], key, k)
  }

  lemma {:induction false} InsertDescMultiset<T>(x: T, s: seq<T>, key: T -> real)
    ensures multiset(InsertDesc(x, s, key)) == multiset(s) + multiset{x}
  {
    if s != [] && key(x) < key(s[0]) {
      assert s == [s[0]] + s[1..];
      InsertDescMultiset(x, s[1..], key);
    }
  }

  lemma {:induction false} InsertDescSorted<T>(x: T, s: seq<T>, key: T -> real)
    requires SortedDesc(s, key)
    ensures SortedDesc(InsertDesc(x, s, key), key)
  {
    if s != [] && key(x) < key(s[0]) {
      InsertDescSorted(x, s[1..], key);
      InsertDescMultiset(x, s[1..], key);
      var r := InsertDesc(x, s[1..], key);
      forall j | 0 <= j < |r| ensures key(s[0]) >= key(r[j]) {
        assert r[j] in multiset(s[1..]) + multiset{x};
        if r[j] != x {
          assert r[j] in s[1..];
        }
      }
    }
  }

  /** Inserting `x` puts it in front of the elements of its own key. */
  lemma KeyFilterCons<T>(a: T, t: seq<T>, key: T -> real, k: real)
    ensures KeyFilter([a] + t, key, k) == (if key(a) == k then [a] else []) + KeyFilter(t, key, k)
  {
    assert ([a] + t)[0] == a && ([a] + t)[1..] == t;
  }

  /** Inserting `x` puts it in front of the elements of its own key. */
  lemma {:induction false} InsertDescKeyFilter<T>(x: T, s: seq<T>, key: T -> real, k: real)
    ensures KeyFilter(InsertDesc(x, s, key), key, k)
            == (if key(x) == k then [x] else []) + KeyFilter(s, key, k)
  {
    if s == [] {
    } else if key(x) >= key(s[0]) {
      KeyFilterCons(x, s, key, k);
    } else {
      var r := InsertDesc(x, s[1..], key);
      assert InsertDesc(x, s, key) == [s[0]] + r;
      assert s == [s[0]] + s[1..];
      InsertDescKeyFilter(x, s[1..], key, k);
      KeyFilterCons(s[0], r, key, k);
      KeyFilterCons(s[0], s[1..], key, k);
      if key(s[0]) == k {
        assert key(x) != k;
      }
    }
  }

  /** `SortDesc` is a stable sort: ordered, a permutation, equal keys in input order. */
  lemma {:induction false} SortDescFacts<T>(s: seq<T>, key: T -> real)
    ensures SortedDesc(SortDesc(s, key), key)
    ensures multiset(SortDesc(s, key)) == multiset(s)
    ensures forall k :: KeyFilter(SortDesc(s, key), key, k) == KeyFilter(s, key, k)
  {
    if s != [] {
      SortDescFacts(s[1..], key);
      var t := SortDesc(s[1..], key);
      InsertDescMultiset(s[0], t, key);
      InsertDescSorted(s[0], t, key);
      forall k ensures KeyFilter(SortDesc(s, key), key, k) == KeyFilter(s, key, k) {
        InsertDescKeyFilter(s[0], t, key, k);
      }
      assert s == [s[0]] + s[1..];
    }
  }

  /** A prefix of a list keeps a prefix of each key's elements. */
  lemma {:induction false} KeyFilterPrefix<T>(p: seq<T>, s: seq<T>, key: T -> real, k: real)
    requires p <= s
    ensures KeyFilter(p, key, k) <= KeyFilter(s, key, k)
    decreases |p|
  {
    if p != [] {
      assert p[1..] <= s[1..];
      KeyFilterPrefix(p[1..], s[1..], key, k);
    }
  }

  /** In an ordered list, every element of a front part has a key at least that of every element behind it. */
  lemma SplitSortedOrdered<T>(r: seq<T>, rest: seq<T>, key: T -> real)
    requires SortedDesc(r + rest, key)
    ensures forall x, y :: x in r && y in multiset(rest) ==> key(x) >= key(y)
  {
    forall x, y | x in r && y in multiset(rest) ensures key(x) >= key(y) {
      var i :| 0 <= i < |r| && r[i] == x;
      var j :| 0 <= j < |rest| && rest[j] == y;
      assert (r + rest)[i] == x && (r + rest)[|r| + j] == y;
    }
  }

  /** The first `n` of a sort: no dropped element has a larger key than a kept one. */
  lemma TakeSortedDropped<T>(s: seq<T>, key: T -> real, n: int)
    ensures multiset(Take(SortDesc(s, key), n)) <= multiset(s)
    ensures forall x, y :: x in Take(SortDesc(s, key), n) && y in multiset(s) - multiset(Take(SortDesc(s, key), n))
              ==> key(x) >= key(y)
  {
    var sorted := SortDesc(s, key);
    SortDescFacts(s, key);
    var r := Take(sorted, n);
    var rest := sorted[|r|..];
    assert sorted == r + rest;
    assert multiset(s) == multiset(r) + multiset(rest);
    assert multiset(s) - multiset(r) == multiset(rest);
    SplitSortedOrdered(r, rest, key);
  }

  /** The first `n` of a stable sort keep, for each key, a prefix of the input's elements with that key. */
  lemma TakeSortedStable<T>(s: seq<T>, key: T -> real, n: int)
    ensures SortedDesc(Take(SortDesc(s, key), n), key)
    ensures forall k :: KeyFilter(Take(SortDesc(s, key), n), key, k) <= KeyFilter(s, key, k)
  {
    var sorted := SortDesc(s, key);
    SortDescFacts(s, key);
    forall k ensures KeyFilter(Take(sorted, n), key, k) <= KeyFilter(s, key, k) {
      KeyFilterPrefix(Take(sorted, n), sorted, key, k);
    }
  }

  // ---------------------------------------------------------------------
  // list(some_set): some order of the set's elements
  // ---------------------------------------------------------------------

  lemma NonEmptySetHasElement<T>(s: set<T>)
    requires s != {}
    ensures exists x :: x in s
  {
    if forall x :: x !in s { assert false; }
  }

  /** `list(s)`: the elements of `s`, each once, in an order Python does not specify. */
  method Enumerate<T(==)>(s: set<T>) returns (xs: seq<T>)
    ensures Distinct(xs) && Elements(xs) == s && |xs| == |s|
  {
    xs := [];
    var rest := s;
    while rest != {}
      invariant Distinct(xs)
      invariant Elements(xs) + rest == s
      invariant Elements(xs) !! rest
      invariant |xs| + |rest| == |s|
      decreases |rest|
    {
      NonEmptySetHasElement(rest);
      var x :| x in rest;
      xs := xs + [x];
      rest := rest - {x};
    }
    DistinctCardinality(xs);
  }

  lemma {:induction false} DistinctCardinality<T>(xs: seq<T>)
    requires Distinct(xs)
    ensures |Elements(xs)| == |xs|
    decreases |xs|
  {
    if xs != [] {
      var init := xs[..|xs| - 1];
      DistinctCardinality(init);
      assert xs == init + [xs[|xs| - 1]];
      assert Elements(xs) == Elements(init) + {xs[|xs| - 1]};
    }
  }

  /** A list without repetitions holds each value at most once. */
  lemma {:induction false} DistinctCount<T>(s: seq<T>, x: T)
    requires Distinct(s)
    ensures multiset(s)[x] <= 1
    decreases |s|
  {
    if s != [] {
      var init := s[..|s| - 1];
      assert s == init + [s[|s| - 1]];
      assert Distinct(init);
      DistinctCount(init, x);
      if x == s[|s| - 1] {
        assert x !in init;
      }
    }
  }

  /** A rearrangement of a list without repetitions has none either. */
  lemma PermutationDistinct<T>(a: seq<T>, b: seq<T>)
    requires multiset(a) == multiset(b) && Distinct(a)
    ensures Distinct(b)
  {
    forall i, j | 0 <= i < j < |b| ensures b[i] != b[j] {
      if b[i] == b[j] {
        assert b == b[..j] + b[j..];
        assert b[i] in b[..j] && b[j] in b[j..];
        assert multiset(b)[b[i]] == multiset(b[..j])[b[i]] + multiset(b[j..])[b[i]];
        DistinctCount(a, b[i]);
        assert false;
      }
    }
  }
}
