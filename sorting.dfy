/** `Array.prototype.sort(compare)`: the pages sort their lists with
    comparators that return a negative, zero or positive number. The sort is
    modelled as an insertion sort; what the pages rely on is that the result is
    ordered by the comparator and is a permutation of the input. */
module Sorting {

  /** Every pair is ordered one way or the other. */
  ghost predicate Total<T(!new)>(cmp: (T, T) -> int) {
    forall a, b :: cmp(a, b) <= 0 || cmp(b, a) <= 0
  }

  ghost predicate Transitive<T(!new)>(cmp: (T, T) -> int) {
    forall a, b, c :: cmp(a, b) <= 0 && cmp(b, c) <= 0 ==> cmp(a, c) <= 0
  }

  /** A comparator `Array.prototype.sort` can rely on: `cmp(a, b) <= 0` is a
      total preorder. */
  ghost predicate ConsistentComparator<T(!new)>(cmp: (T, T) -> int) {
    Total(cmp) && Transitive(cmp)
  }

  ghost predicate SortedBy<T>(s: seq<T>, cmp: (T, T) -> int) {
    forall i, j :: 0 <= i < j < |s| ==> cmp(s[i], s[j]) <= 0
  }

  /** Puts `x` in front of the first element it does not sort after. */
  function Insert<T>(x: T, s: seq<T>, cmp: (T, T) -> int): (r: seq<T>)
    ensures multiset(r) == multiset(s) + multiset{x}
  {
    if s == [] then [x]
    else if cmp(x, s[0]) <= 0 then [x] + s
    else
      var rest := Insert(x, s[1..], cmp);
      assert s == [s[0]] + s[1..];
      [s[0]] + rest
  }

  function Sort<T>(xs: seq<T>, cmp: (T, T) -> int): (r: seq<T>)
    ensures multiset(r) == multiset(xs)
  {
    if xs == [] then []
    else
      var sorted := Sort(xs[1..], cmp);
      assert xs == [xs[0]] + xs[1..];
      Insert(xs[0], sorted, cmp)
  }

  lemma {:induction false} InsertSorted<T(!new)>(x: T, s: seq<T>, cmp: (T, T) -> int)
    requires ConsistentComparator(cmp) && SortedBy(s, cmp)
    ensures SortedBy(Insert(x, s, cmp), cmp)
  {
    if s != [] && cmp(x, s[0]) > 0 {
      InsertSorted(x, s[1..], cmp);
      var r := Insert(x, s, cmp);
      var rest := Insert(x, s[1..], cmp);
      assert r == [s[0]] + rest;
      assert cmp(s[0], x) <= 0;
      forall k | 0 <= k < |rest|
        ensures cmp(s[0], rest[k]) <= 0
      {
        assert rest[k] in multiset(rest);
        assert rest[k] == x || rest[k] in multiset(s[1..]);
        if rest[k] != x {
          var m :| 0 <= m < |s[1..]| && s[1..][m] == rest[k];
          assert s[1 + m] == rest[k];
        }
      }
    }
  }

  /** The sorted list is ordered by the comparator. */
  lemma {:induction false} SortSorted<T(!new)>(xs: seq<T>, cmp: (T, T) -> int)
    requires ConsistentComparator(cmp)
    ensures SortedBy(Sort(xs, cmp), cmp)
  {
    if xs != [] {
      SortSorted(xs[1..], cmp);
      InsertSorted(xs[0], Sort(xs[1..], cmp), cmp);
    }
  }

  /** No value occurs twice. */
  predicate Distinct<T(==)>(s: seq<T>) {
    forall i, j :: 0 <= i < j < |s| ==> s[i] != s[j]
  }

  lemma {:induction false} DistinctOccursOnce<T>(s: seq<T>, x: T)
    requires Distinct(s)
    ensures multiset(s)[x] <= 1
  {
    if s != [] {
      assert Distinct(s[1..]) by {
        forall i, j | 0 <= i < j < |s[1..]| ensures s[1..][i] != s[1..][j] {
          assert s[1..][i] == s[i + 1] && s[1..][j] == s[j + 1];
        }
      }
      DistinctOccursOnce(s[1..], x);
      assert s == [s[0]] + s[1..];
      if s[0] == x {
        forall k | 0 <= k < |s[1..]| ensures s[1..][k] != x {
          assert s[1..][k] == s[k + 1];
        }
        assert x !in s[1..];
      }
    }
  }

  /** A permutation of a list without duplicates has none either. */
  lemma DistinctPermutation<T>(a: seq<T>, b: seq<T>)
    requires Distinct(a) && multiset(a) == multiset(b)
    ensures Distinct(b)
  {
    forall i, j | 0 <= i < j < |b|
      ensures b[i] != b[j]
    {
      if b[i] == b[j] {
        var x := b[i];
        assert b == b[..i] + [x] + b[i + 1..j] + [x] + b[j + 1..] by {
          assert b[..j] == b[..i] + [x] + b[i + 1..j];
          assert b == b[..j] + [x] + b[j + 1..];
        }
        assert multiset(b)[x] >= 2;
        DistinctOccursOnce(a, x);
      }
    }
  }

  /** A sorted list without duplicates is ordered strictly. */
  lemma SortedDistinctStrict(s: seq<string>, cmp: (string, string) -> int)
    requires SortedBy(s, cmp) && Distinct(s)
    requires forall a, b :: cmp(a, b) == 0 ==> a == b
    ensures forall i, j :: 0 <= i < j < |s| ==> cmp(s[i], s[j]) < 0
  {
  }
}
