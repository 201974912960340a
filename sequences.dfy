/** Sequence helpers: order-preserving filtering (`Array.prototype.filter`, list
    comprehensions with a condition) and a stable sort by descending integer key
    (Python's stable `sorted(..., reverse=True)` over a key, and `Array.prototype.sort`
    with a `b - a` comparator, which is stable). */
module Sequences {

  /** The elements of `s` that satisfy `p`, in order. */
  function Filter<T>(s: seq<T>, p: T -> bool): seq<T> {
    if s == [] then []
    else if p(s[0]) then [s[0]] + Filter(s[1..], p)
    else Filter(s[1..], p)
  }

  /** Filtering keeps exactly the elements that satisfy the condition, and no more. */
  lemma {:induction false} FilterSpec<T>(s: seq<T>, p: T -> bool)
    ensures |Filter(s, p)| <= |s|
    ensures forall i :: 0 <= i < |Filter(s, p)| ==> p(Filter(s, p)[i]) && Filter(s, p)[i] in s
    ensures forall i :: 0 <= i < |s| && p(s[i]) ==> s[i] in Filter(s, p)
  {
    if s != [] {
      FilterSpec(s[1..], p);
      assert forall x :: x in s[1..] ==> x in s;
      forall i | 0 <= i < |s| && p(s[i]) ensures s[i] in Filter(s, p) {
        if i > 0 {
          assert s[i] == s[1..][i - 1];
        }
      }
    }
  }

  lemma {:induction false} FilterAppend<T>(a: seq<T>, b: seq<T>, p: T -> bool)
    ensures Filter(a + b, p) == Filter(a, p) + Filter(b, p)
  {
    if a != [] {
      assert (a + b)[0] == a[0] && (a + b)[1..] == a[1..] + b;
      FilterAppend(a[1..], b, p);
    } else {
      assert a + b == b;
    }
  }

  /** Filtering twice with the same condition changes nothing the second time. */
  lemma {:induction false} FilterIdempotent<T>(s: seq<T>, p: T -> bool)
    ensures Filter(Filter(s, p), p) == Filter(s, p)
  {
    if s != [] {
      FilterIdempotent(s[1..], p);
    }
  }

  /** The elements that satisfy a condition and those that satisfy its negation are,
      together, all of `s`. */
  lemma {:induction false} FilterPartition<T>(s: seq<T>, p: T -> bool, q: T -> bool)
    requires forall x :: q(x) <==> !p(x)
    ensures multiset(Filter(s, p)) + multiset(Filter(s, q)) == multiset(s)
  {
    if s != [] {
      FilterPartition(s[1..], p, q);
      assert s == [s[0]] + s[1..];
    }
  }

  /** Filtering a list none of whose elements satisfies the condition leaves nothing. */
  lemma {:induction false} FilterNone<T>(s: seq<T>, p: T -> bool)
    requires forall i :: 0 <= i < |s| ==> !p(s[i])
    ensures Filter(s, p) == []
  {
    if s != [] {
      assert forall i :: 0 <= i < |s| - 1 ==> s[1..][i] == s[i + 1];
      FilterNone(s[1..], p);
    }
  }

  /** The elements satisfying `p`, sorted by `key`, followed by the others as they come: a
      permutation of `s` in which every element satisfying `p` comes before every other, in
      non-increasing key order, and the others keep their order from `s`. */
  lemma SortedPartitionSpec<T>(s: seq<T>, p: T -> bool, q: T -> bool, key: T -> int)
    requires forall x :: q(x) <==> !p(x)
    ensures var l := SortDesc(Filter(s, p), key) + Filter(s, q);
      multiset(l) == multiset(s) && |l| == |s| &&
      (forall i, j :: 0 <= i < j < |l| && p(l[j]) ==> p(l[i]) && key(l[i]) >= key(l[j])) &&
      Filter(l, q) == Filter(s, q)
  {
    var a := SortDesc(Filter(s, p), key);
    var b := Filter(s, q);
    SortDescSpec(Filter(s, p), key);
    FilterSpec(s, p);
    FilterSpec(s, q);
    FilterPartition(s, p, q);
    assert multiset(a + b) == multiset(a) + multiset(b);
    forall i | 0 <= i < |a|
      ensures p(a[i]) && !q(a[i])
    {
      assert a[i] in multiset(a);
    }
    PartitionOrder(a, b, p, key);
    FilterAppend(a, b, q);
    FilterNone(a, q);
    FilterIdempotent(s, q);
  }

  /** Sorted elements satisfying `p` followed by elements that do not: every element satisfying
      `p` comes before every other, in non-increasing key order. */
  lemma PartitionOrder<T>(a: seq<T>, b: seq<T>, p: T -> bool, key: T -> int)
    requires forall i :: 0 <= i < |a| ==> p(a[i])
    requires forall k :: 0 <= k < |b| ==> !p(b[k])
    requires SortedDesc(a, key)
    ensures forall i, j :: 0 <= i < j < |a + b| && p((a + b)[j]) ==> p((a + b)[i]) && key((a + b)[i]) >= key((a + b)[j])
  {
    var l := a + b;
    forall k | |a| <= k < |l|
      ensures !p(l[k])
    {
      assert l[k] == b[k - |a|];
    }
  }

  /** Filtering a list without repetitions gives a list without repetitions. */
  lemma {:induction false} FilterDistinct<T>(s: seq<T>, p: T -> bool)
    requires Distinct(s)
    ensures Distinct(Filter(s, p))
  {
    if s != [] {
      FilterDistinct(s[1..], p);
      FilterSpec(s[1..], p);
      assert forall j :: 1 <= j < |s| ==> s[j] != s[0] && s[j] == s[1..][j - 1];
      if p(s[0]) {
        assert s[0] !in s[1..];
        assert s[0] !in Filter(s[1..], p);
      }
    }
  }

  /** `a` is `b` with some elements left out, the rest in their order. */
  predicate IsSubsequence<T(==)>(a: seq<T>, b: seq<T>)
    decreases |b|
  {
    a == [] || (b != [] && ((a[0] == b[0] && IsSubsequence(a[1..], b[1..])) || IsSubsequence(a, b[1..])))
  }

  /** Filtering keeps the surviving elements in their order. */
  lemma {:induction false} FilterSubsequence<T>(s: seq<T>, p: T -> bool)
    ensures IsSubsequence(Filter(s, p), s)
  {
    if s != [] {
      FilterSubsequence(s[1..], p);
      if p(s[0]) {
        assert Filter(s, p)[1..] == Filter(s[1..], p);
      }
    }
  }

  // ---------------------------------------------------------------------------
  // Stable sort by descending key

  predicate SortedDesc<T>(s: seq<T>, key: T -> int) {
    forall i, j :: 0 <= i < j < |s| ==> key(s[i]) >= key(s[j])
  }

  /** The elements of `s` whose key is `k`, in their order in `s`. */
  function WithKey<T>(s: seq<T>, key: T -> int, k: int): seq<T> {
    if s == [] then []
    else (if key(s[0]) == k then [s[0]] else []) + WithKey(s[1..], key, k)
  }

  /** Puts `x` in front of the first element whose key is not greater than its own,
      so that `x` stays ahead of the equal-keyed elements that came after it. */
  function Insert<T>(x: T, s: seq<T>, key: T -> int): (r: seq<T>)
    ensures multiset(r) == multiset(s) + multiset{x}
  {
    if s == [] || key(s[0]) <= key(x) then
      assert ([x] + s)[1..] == s;
      [x] + s
    else
      assert s == [s[0]] + s[1..];
      [s[0]] + Insert(x, s[1..], key)
  }

  lemma {:induction false} InsertSorted<T>(x: T, s: seq<T>, key: T -> int)
    requires SortedDesc(s, key)
    ensures SortedDesc(Insert(x, s, key), key)
  {
    if s != [] && key(s[0]) > key(x) {
      var t := Insert(x, s[1..], key);
      InsertSorted(x, s[1..], key);
      InsertBounded(x, s[1..], key, key(s[0]));
      assert Insert(x, s, key) == [s[0]] + t;
    }
  }

  /** Inserting an element no greater than a bound into a sequence no greater than that
      bound keeps it under the bound. */
  lemma {:induction false} InsertBounded<T>(x: T, s: seq<T>, key: T -> int, bound: int)
    requires key(x) <= bound
    requires forall i :: 0 <= i < |s| ==> key(s[i]) <= bound
    ensures forall i :: 0 <= i < |Insert(x, s, key)| ==> key(Insert(x, s, key)[i]) <= bound
  {
    if s != [] && key(s[0]) > key(x) {
      InsertBounded(x, s[1..], key, bound);
      assert Insert(x, s, key) == [s[0]] + Insert(x, s[1..], key);
    }
  }

  lemma {:induction false} InsertWithKey<T>(x: T, s: seq<T>, key: T -> int, k: int)
    ensures WithKey(Insert(x, s, key), key, k) == (if key(x) == k then [x] else []) + WithKey(s, key, k)
  {
    if s == [] || key(s[0]) <= key(x) {
      assert ([x] + s)[1..] == s;
    } else {
      var t := s[1..];
      var r := Insert(x, s, key);
      InsertWithKey(x, t, key, k);
      assert r == [s[0]] + Insert(x, t, key);
      assert r[1..] == Insert(x, t, key);
      var head: seq<T> := if key(s[0]) == k then [s[0]] else [];
      assert WithKey(r, key, k) == head + WithKey(Insert(x, t, key), key, k);
      assert WithKey(s, key, k) == head + WithKey(t, key, k);
      if key(x) == k {
        assert head == [];
      }
    }
  }

  /** Insertion sort by non-increasing key (see `SortDescSpec`). */
  function SortDesc<T>(s: seq<T>, key: T -> int): seq<T> {
    if s == [] then [] else Insert(s[0], SortDesc(s[1..], key), key)
  }

  /** The sort is a permutation of `s`, ordered by non-increasing key, in which the
      elements sharing a key keep their relative order from `s` (stability). */
  lemma {:induction false} SortDescSpec<T>(s: seq<T>, key: T -> int)
    ensures multiset(SortDesc(s, key)) == multiset(s)
    ensures |SortDesc(s, key)| == |s|
    ensures SortedDesc(SortDesc(s, key), key)
    ensures forall k :: WithKey(SortDesc(s, key), key, k) == WithKey(s, key, k)
  {
    var r := SortDesc(s, key);
    if s != [] {
      assert s == [s[0]] + s[1..];
      var t := SortDesc(s[1..], key);
      SortDescSpec(s[1..], key);
      InsertSorted(s[0], t, key);
      forall k ensures WithKey(r, key, k) == WithKey(s, key, k) {
        InsertWithKey(s[0], t, key, k);
      }
    }
    assert |r| == |multiset(r)|;
  }

  /** Two keys that agree on the elements of `s` sort it the same way. */
  lemma {:induction false} SortDescKeysAgree<T>(s: seq<T>, key1: T -> int, key2: T -> int)
    requires forall i :: 0 <= i < |s| ==> key1(s[i]) == key2(s[i])
    ensures SortDesc(s, key1) == SortDesc(s, key2)
  {
    if s != [] {
      SortDescKeysAgree(s[1..], key1, key2);
      var t := SortDesc(s[1..], key1);
      SortDescSpec(s[1..], key1);
      forall i | 0 <= i < |t| ensures key1(t[i]) == key2(t[i]) {
        assert t[i] in multiset(s[1..]);
      }
      InsertKeysAgree(s[0], t, key1, key2);
    }
  }

  lemma {:induction false} InsertKeysAgree<T>(x: T, s: seq<T>, key1: T -> int, key2: T -> int)
    requires key1(x) == key2(x)
    requires forall i :: 0 <= i < |s| ==> key1(s[i]) == key2(s[i])
    ensures Insert(x, s, key1) == Insert(x, s, key2)
  {
    if s != [] && key1(s[0]) > key1(x) {
      InsertKeysAgree(x, s[1..], key1, key2);
    }
  }

  // ---------------------------------------------------------------------------
  // Counting and first occurrences

  /** The number of occurrences of `x` in `s`. */
  function Count<T(==)>(s: seq<T>, x: T): (n: nat)
    ensures n > 0 <==> x in s
    ensures n <= |s|
  {
    if s == [] then 0
    else Count(s[..|s| - 1], x) + (if s[|s| - 1] == x then 1 else 0)
  }

  predicate Distinct<T(==)>(s: seq<T>) {
    forall i, j :: 0 <= i < j < |s| ==> s[i] != s[j]
  }

  /** The distinct elements of `s` in the order they first appear (dictionary insertion order). */
  function Dedup<T(==)>(s: seq<T>): seq<T> {
    if s == [] then []
    else
      var init := Dedup(s[..|s| - 1]);
      var last := s[|s| - 1];
      if last in init then init else init + [last]
  }

  /** No element twice, and the same elements as `s`. */
  lemma {:induction false} DedupSpec<T(!new)>(s: seq<T>)
    ensures Distinct(Dedup(s))
    ensures forall x :: x in Dedup(s) <==> x in s
  {
    if s != [] {
      DedupSpec(s[..|s| - 1]);
      var last := s[|s| - 1];
      assert forall x :: x in s <==> x in s[..|s| - 1] || x == last by {
        assert s == s[..|s| - 1] + [last];
      }
    }
  }

  /** The index of the first occurrence of `x` in `s`. */
  function FirstIndex<T(==)>(s: seq<T>, x: T): (i: nat)
    requires x in s
    ensures i < |s| && s[i] == x
    ensures forall j :: 0 <= j < i ==> s[j] != x
  {
    if s[0] == x then 0 else 1 + FirstIndex(s[1..], x)
  }

  lemma {:induction false} FirstIndexAppend<T>(s: seq<T>, y: T, x: T)
    requires x in s
    ensures FirstIndex(s + [y], x) == FirstIndex(s, x)
  {
    if s[0] != x {
      assert (s + [y])[1..] == s[1..] + [y];
      FirstIndexAppend(s[1..], y, x);
    }
  }

  /** Every element of `d` occurs in `s`, and `d` lists them by increasing first occurrence in `s`. */
  predicate InFirstOccurrenceOrder<T(==)>(d: seq<T>, s: seq<T>) {
    (forall i :: 0 <= i < |d| ==> d[i] in s) &&
    forall i, j :: 0 <= i < j < |d| ==> FirstIndex(s, d[i]) < FirstIndex(s, d[j])
  }

  /** `Dedup` lists the elements by increasing first occurrence in `s`. */
  lemma {:induction false} DedupFirstOccurrenceOrder<T(!new)>(s: seq<T>)
    ensures InFirstOccurrenceOrder(Dedup(s), s)
  {
    DedupSpec(s);
    if s != [] {
      var init, last := s[..|s| - 1], s[|s| - 1];
      assert s == init + [last];
      DedupFirstOccurrenceOrder(init);
      var d := Dedup(init);
      DedupSpec(init);
      forall x | x in init ensures FirstIndex(s, x) == FirstIndex(init, x) {
        FirstIndexAppend(init, last, x);
      }
      if last !in d {
        forall i | 0 <= i < |d| ensures FirstIndex(s, d[i]) < FirstIndex(s, last) {
          assert d[i] in init;
          assert FirstIndex(s, last) == |init| by {
            assert forall j :: 0 <= j < |init| ==> s[j] != last;
          }
        }
      }
    }
  }

  /** `P(k, xs[k])` holds for every position `k`, stated from the last element back. */
  predicate NumberedAll<X>(P: (nat, X) -> bool, xs: seq<X>) {
    xs == [] || (NumberedAll(P, xs[..|xs| - 1]) && P(|xs| - 1, xs[|xs| - 1]))
  }

  lemma NumberedAppend<X>(P: (nat, X) -> bool, xs: seq<X>, x: X)
    requires NumberedAll(P, xs) && P(|xs|, x)
    ensures NumberedAll(P, xs + [x])
  {
    assert (xs + [x])[..|xs|] == xs;
  }

  lemma {:induction false} NumberedEach<X>(P: (nat, X) -> bool, xs: seq<X>)
    requires NumberedAll(P, xs)
    ensures forall k :: 0 <= k < |xs| ==> P(k, xs[k])
  {
    if xs != [] {
      var init := xs[..|xs| - 1];
      NumberedEach(P, init);
      forall k | 0 <= k < |init| ensures P(k, xs[k]) {
        assert xs[k] == init[k];
      }
    }
  }
}
