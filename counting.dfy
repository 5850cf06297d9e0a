/** Sequence utilities behind the agents' pandas calls: row filters, `unique()`
    (distinct values in first-seen order), and `value_counts()` followed by
    `drop(...)` and `head(n)`, with `value_counts` modelled as a stable sort
    of the distinct values by descending count (ties keep first-seen order). */
module Counting {

  /** The number of occurrences of `x` in `s`. */
  function Count<T(==,!new)>(s: seq<T>, x: T): (n: nat)
    ensures n <= |s|
    ensures n > 0 <==> x in s
  {
    if s == [] then 0 else (if s[0] == x then 1 else 0) + Count(s[1..], x)
  }

  lemma {:induction false} CountAppend<T(!new)>(a: seq<T>, b: seq<T>, x: T)
    ensures Count(a + b, x) == Count(a, x) + Count(b, x)
  {
    if a != [] {
      assert (a + b)[0] == a[0] && (a + b)[1..] == a[1..] + b;
      CountAppend(a[1..], b, x);
    } else {
      assert a + b == b;
    }
  }

  /** `Count` is the multiplicity of `x` in the multiset of `s`. */
  lemma {:induction false} CountIsMultiplicity<T(!new)>(s: seq<T>, x: T)
    ensures Count(s, x) == multiset(s)[x]
  {
    if s != [] {
      assert s == [s[0]] + s[1..];
      CountIsMultiplicity(s[1..], x);
    }
  }

  predicate NoDuplicates<T(==,!new)>(s: seq<T>) {
    forall i, j :: 0 <= i < j < |s| ==> s[i] != s[j]
  }

  /** `a` is `b` with some elements deleted, the rest kept in order. */
  predicate IsSubsequence<T(==,!new)>(a: seq<T>, b: seq<T>)
    decreases |b|
  {
    if a == [] then true
    else if b == [] then false
    else (a[0] == b[0] && IsSubsequence(a[1..], b[1..])) || IsSubsequence(a, b[1..])
  }

  /** The elements of `s` that satisfy `p`, in their order in `s`
      (a boolean-mask selection `df[mask]`, or a list comprehension with a condition). */
  function Filter<T(==,!new)>(s: seq<T>, p: T -> bool): (r: seq<T>)
    ensures |r| <= |s|
    ensures forall x :: x in r <==> x in s && p(x)
    ensures forall x :: Count(r, x) == if p(x) then Count(s, x) else 0
    ensures IsSubsequence(r, s)
  {
    if s == [] then []
    else
      var rest := Filter(s[1..], p);
      var r := (if p(s[0]) then [s[0]] else []) + rest;
      assert r != [] && p(s[0]) ==> r[0] == s[0] && r[1..] == rest;
      assert !p(s[0]) ==> r == rest;
      r
  }

  /** A mask that every element satisfies selects the whole sequence. */
  lemma {:induction false} FilterAll<T(!new)>(s: seq<T>, p: T -> bool)
    requires forall i :: 0 <= i < |s| ==> p(s[i])
    ensures Filter(s, p) == s
  {
    if s != [] {
      FilterAll(s[1..], p);
    }
  }

  /** The first element selected is the first element that satisfies the mask. */
  lemma {:induction false} FilterFirst<T(!new)>(s: seq<T>, p: T -> bool, k: nat)
    requires k < |s| && p(s[k])
    requires forall j :: 0 <= j < k ==> !p(s[j])
    ensures Filter(s, p) != [] && Filter(s, p)[0] == s[k]
  {
    if k > 0 {
      FilterFirst(s[1..], p, k - 1);
    }
  }

  /** A selection from a list without duplicates has none either. */
  lemma {:induction false} FilterNoDuplicates<T(!new)>(s: seq<T>, p: T -> bool)
    requires NoDuplicates(s)
    ensures NoDuplicates(Filter(s, p))
  {
    if s != [] {
      var t := s[1..];
      forall i, j | 0 <= i < j < |t| ensures t[i] != t[j] {
        assert t[i] == s[i + 1] && t[j] == s[j + 1];
      }
      FilterNoDuplicates(t, p);
      forall k | 0 <= k < |t| ensures t[k] != s[0] {
        assert t[k] == s[k + 1];
      }
      var rest := Filter(t, p);
      var r := (if p(s[0]) then [s[0]] else []) + rest;
      assert s[0] !in rest;
      forall i, j | 0 <= i < j < |r| ensures r[i] != r[j] {
        if p(s[0]) && i == 0 {
          assert r[j] == rest[j - 1];
        }
      }
    }
  }

  /** In a list without duplicates every member occurs exactly once. */
  lemma {:induction false} NoDuplicatesCount<T(!new)>(s: seq<T>, x: T)
    requires NoDuplicates(s)
    ensures Count(s, x) == if x in s then 1 else 0
  {
    if s != [] {
      var t := s[1..];
      forall i, j | 0 <= i < j < |t| ensures t[i] != t[j] {
        assert t[i] == s[i + 1] && t[j] == s[j + 1];
      }
      NoDuplicatesCount(t, x);
      if x == s[0] {
        forall k | 0 <= k < |t| ensures t[k] != x {
          assert t[k] == s[k + 1];
        }
      }
      assert x in s <==> x == s[0] || x in t;
    }
  }

  lemma {:induction false} FilterAppend<T(!new)>(a: seq<T>, b: seq<T>, p: T -> bool)
    ensures Filter(a + b, p) == Filter(a, p) + Filter(b, p)
  {
    if a != [] {
      assert (a + b)[0] == a[0] && (a + b)[1..] == a[1..] + b;
      FilterAppend(a[1..], b, p);
    } else {
      assert a + b == b;
    }
  }

  /** The position of the first occurrence of `x`. */
  function FirstIndex<T(==,!new)>(s: seq<T>, x: T): (i: nat)
    requires x in s
    ensures i < |s| && s[i] == x
    ensures forall k :: 0 <= k < i ==> s[k] != x
  {
    if s[0] == x then 0 else 1 + FirstIndex(s[1..], x)
  }

  lemma {:induction false} FirstIndexOfPrefix<T(!new)>(s: seq<T>, n: nat, x: T)
    requires n <= |s| && x in s[..n]
    ensures FirstIndex(s[..n], x) == FirstIndex(s, x)
  {
    assert s[..n][0] == s[0];
    if s[0] != x {
      assert s[..n][1..] == s[1..][..n - 1];
      FirstIndexOfPrefix(s[1..], n - 1, x);
    }
  }

  /** pandas `unique()`: each distinct element once, in first-seen order. */
  function Distinct<T(==,!new)>(s: seq<T>): (r: seq<T>)
    ensures NoDuplicates(r)
    ensures forall x :: x in r <==> x in s
    ensures |r| <= |s|
  {
    if s == [] then []
    else
      var init := s[..|s| - 1];
      var t := Distinct(init);
      assert s == init + [s[|s| - 1]];
      if s[|s| - 1] in t then t else t + [s[|s| - 1]]
  }

  /** `Distinct` lists the elements in the order of their first occurrence. */
  lemma {:induction false} DistinctFirstSeen<T(!new)>(s: seq<T>)
    ensures forall i, j :: 0 <= i < j < |Distinct(s)| ==>
              FirstIndex(s, Distinct(s)[i]) < FirstIndex(s, Distinct(s)[j])
  {
    if s != [] {
      var n := |s| - 1;
      var init := s[..n];
      var t := Distinct(init);
      DistinctFirstSeen(init);
      forall y | y in t
        ensures FirstIndex(s, y) == FirstIndex(init, y) < n
      {
        FirstIndexOfPrefix(s, n, y);
      }
      var r := Distinct(s);
      if s[n] !in t {
        assert s[n] !in init;
        assert FirstIndex(s, s[n]) == n;
        assert r == t + [s[n]];
        forall i, j | 0 <= i < j < |r|
          ensures FirstIndex(s, r[i]) < FirstIndex(s, r[j])
        {
          if j < |t| {
            assert r[i] == t[i] && r[j] == t[j];
          } else {
            assert r[i] == t[i];
          }
        }
      }
    }
  }

  /** Non-increasing by `key`. */
  predicate SortedDesc<T(==,!new)>(s: seq<T>, key: T -> int) {
    forall i, j :: 0 <= i < j < |s| ==> key(s[i]) >= key(s[j])
  }

  /** Inserts `x` before the first element whose key is not greater. */
  function Insert<T(==,!new)>(x: T, s: seq<T>, key: T -> int): (r: seq<T>)
    ensures |r| == |s| + 1
    ensures multiset(r) == multiset(s) + multiset{x}
  {
    if s == [] then [x]
    else
      assert s == [s[0]] + s[1..];
      if key(s[0]) > key(x) then [s[0]] + Insert(x, s[1..], key) else [x] + s
  }

  lemma InsertElements<T(!new)>(x: T, s: seq<T>, key: T -> int)
    ensures forall y :: y in Insert(x, s, key) <==> y in s || y == x
  {
    var r := Insert(x, s, key);
    forall y ensures y in r <==> y in s || y == x {
      assert y in r <==> y in multiset(r);
    }
  }

  lemma {:induction false} InsertSorted<T(!new)>(x: T, s: seq<T>, key: T -> int)
    requires SortedDesc(s, key)
    ensures SortedDesc(Insert(x, s, key), key)
  {
    if s != [] && key(s[0]) > key(x) {
      InsertSorted(x, s[1..], key);
      InsertElements(x, s[1..], key);
      var t := Insert(x, s[1..], key);
      assert Insert(x, s, key) == [s[0]] + t;
      forall i | 0 <= i < |t| ensures key(s[0]) >= key(t[i]) {
        assert t[i] in t;
      }
    }
  }

  /** Python's `list.sort(key=..., reverse=True)`: a stable sort into
      non-increasing key order. The result is a permutation of the input. */
  function SortDesc<T(==,!new)>(s: seq<T>, key: T -> int): (r: seq<T>)
    ensures |r| == |s|
    ensures multiset(r) == multiset(s)
  {
    if s == [] then []
    else
      assert s == [s[0]] + s[1..];
      Insert(s[0], SortDesc(s[1..], key), key)
  }

  lemma SortDescElements<T(!new)>(s: seq<T>, key: T -> int)
    ensures forall y :: y in SortDesc(s, key) <==> y in s
  {
    var r := SortDesc(s, key);
    forall y ensures y in r <==> y in s {
      assert y in r <==> y in multiset(r);
    }
  }

  /** The sort's result is in non-increasing key order. */
  lemma {:induction false} SortDescSorted<T(!new)>(s: seq<T>, key: T -> int)
    ensures SortedDesc(SortDesc(s, key), key)
  {
    if s != [] {
      SortDescSorted(s[1..], key);
      InsertSorted(s[0], SortDesc(s[1..], key), key);
    }
  }

  /** The elements with key `c`, in order. */
  function WithKey<T(==,!new)>(s: seq<T>, key: T -> int, c: int): seq<T>
  {
    if s == [] then []
    else (if key(s[0]) == c then [s[0]] else []) + WithKey(s[1..], key, c)
  }

  lemma WithKeyCons<T(!new)>(y: T, t: seq<T>, key: T -> int, c: int)
    ensures WithKey([y] + t, key, c) == (if key(y) == c then [y] else []) + WithKey(t, key, c)
  {
    assert ([y] + t)[0] == y && ([y] + t)[1..] == t;
  }

  lemma {:induction false} InsertWithKey<T(!new)>(x: T, s: seq<T>, key: T -> int, c: int)
    ensures WithKey(Insert(x, s, key), key, c)
         == (if key(x) == c then [x] else []) + WithKey(s, key, c)
  {
    if s == [] {
      WithKeyCons(x, [], key, c);
      assert [x] + [] == [x];
    } else {
      assert s == [s[0]] + s[1..];
      WithKeyCons(s[0], s[1..], key, c);
      if key(s[0]) > key(x) {
        InsertWithKey(x, s[1..], key, c);
        WithKeyCons(s[0], Insert(x, s[1..], key), key, c);
      } else {
        WithKeyCons(x, s, key, c);
      }
    }
  }

  /** Stability: for every key value, the elements with that key come out of
      the sort in the order they went in. */
  lemma {:induction false} SortDescStable<T(!new)>(s: seq<T>, key: T -> int, c: int)
    ensures WithKey(SortDesc(s, key), key, c) == WithKey(s, key, c)
  {
    if s != [] {
      SortDescStable(s[1..], key, c);
      InsertWithKey(s[0], SortDesc(s[1..], key), key, c);
    }
  }

  /** Every pair taken left to right satisfies `rel`. */
  predicate Pairwise<T(!new)>(s: seq<T>, rel: (T, T) -> bool) {
    forall i, j :: 0 <= i < j < |s| ==> rel(s[i], s[j])
  }

  /** A filter keeps every pairwise order of its input. */
  lemma {:induction false} FilterPairwise<T(!new)>(s: seq<T>, p: T -> bool, rel: (T, T) -> bool)
    requires Pairwise(s, rel)
    ensures Pairwise(Filter(s, p), rel)
  {
    if s != [] {
      FilterPairwise(s[1..], p, rel);
      var rest := Filter(s[1..], p);
      if p(s[0]) {
        var r := Filter(s, p);
        assert r == [s[0]] + rest;
        forall i, j | 0 <= i < j < |r| ensures rel(r[i], r[j]) {
          if i > 0 {
            assert r[i] == rest[i - 1] && r[j] == rest[j - 1];
          } else {
            assert r[j] == rest[j - 1] && r[j] in s[1..];
          }
        }
      }
    }
  }

  /** Sorted by descending key, ties in increasing `rank`. */
  predicate SortedDescThenRank<T(!new)>(s: seq<T>, key: T -> int, rank: T -> int) {
    forall i, j :: 0 <= i < j < |s| ==>
      key(s[i]) > key(s[j]) || (key(s[i]) == key(s[j]) && rank(s[i]) < rank(s[j]))
  }

  /** An element ahead of everything in a sorted list keeps it sorted. */
  lemma ConsSortedThenRank<T(!new)>(y: T, t: seq<T>, key: T -> int, rank: T -> int)
    requires SortedDescThenRank(t, key, rank)
    requires forall z :: z in t ==> key(y) > key(z) || (key(y) == key(z) && rank(y) < rank(z))
    ensures SortedDescThenRank([y] + t, key, rank)
  {
    var r := [y] + t;
    forall i, j | 0 <= i < j < |r|
      ensures key(r[i]) > key(r[j]) || (key(r[i]) == key(r[j]) && rank(r[i]) < rank(r[j]))
    {
      assert r[j] == t[j - 1];
      if i > 0 {
        assert r[i] == t[i - 1];
      } else {
        assert t[j - 1] in t;
      }
    }
  }

  lemma {:induction false} InsertSortedThenRank<T(!new)>(x: T, s: seq<T>, key: T -> int, rank: T -> int)
    requires SortedDescThenRank(s, key, rank)
    requires forall y :: y in s ==> rank(x) < rank(y)
    ensures SortedDescThenRank(Insert(x, s, key), key, rank)
  {
    if s != [] {
      assert s == [s[0]] + s[1..];
      if key(s[0]) > key(x) {
        var t := Insert(x, s[1..], key);
        InsertSortedThenRank(x, s[1..], key, rank);
        InsertElements(x, s[1..], key);
        forall z | z in t ensures key(s[0]) > key(z) || (key(s[0]) == key(z) && rank(s[0]) < rank(z)) {
          if z != x {
            var k :| 0 <= k < |s[1..]| && s[1..][k] == z;
            assert s[k + 1] == z;
          }
        }
        ConsSortedThenRank(s[0], t, key, rank);
      } else {
        forall z | z in s ensures key(x) > key(z) || (key(x) == key(z) && rank(x) < rank(z)) {
          var k :| 0 <= k < |s| && s[k] == z;
          if k > 0 {
            assert key(s[0]) >= key(s[k]);
          }
        }
        ConsSortedThenRank(x, s, key, rank);
      }
    }
  }

  /** When the input is listed in increasing rank, the sort orders by key and
      breaks ties by rank: the stable sort keeps the input order among equals. */
  lemma {:induction false} SortDescThenRank<T(!new)>(s: seq<T>, key: T -> int, rank: T -> int)
    requires forall i, j :: 0 <= i < j < |s| ==> rank(s[i]) < rank(s[j])
    ensures SortedDescThenRank(SortDesc(s, key), key, rank)
  {
    if s != [] {
      SortDescThenRank(s[1..], key, rank);
      SortDescElements(s[1..], key);
      forall y | y in SortDesc(s[1..], key) ensures rank(s[0]) < rank(y) {
        var k :| 0 <= k < |s[1..]| && s[1..][k] == y;
        assert s[k + 1] == y;
      }
      InsertSortedThenRank(s[0], SortDesc(s[1..], key), key, rank);
    }
  }
}
