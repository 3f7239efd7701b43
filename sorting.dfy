/**
 * `Array.prototype.sort` with a comparator, modelled as an insertion sort that
 * is stable by construction (an element goes in front of the sorted elements
 * it ties with): `cmp(a, b) < 0` puts `a` first, `cmp(a, b) > 0` puts `b` first, and a
 * comparator that JavaScript reads as NaN is `0`. When the comparator is a
 * total preorder on the elements, a stable sort's result is unique, so this
 * is the result the engine gives; for an inconsistent comparator JavaScript
 * leaves the order to the engine and only the permutation is promised.
 */
module Sorting {

  ghost predicate SortedBy<T>(s: seq<T>, cmp: (T, T) -> int)
  {
    forall i, j :: 0 <= i < j < |s| ==> cmp(s[i], s[j]) <= 0
  }

  /** `cmp` orders the elements of `s` totally and transitively (ties allowed). */
  ghost predicate TotalPreorderOn<T>(cmp: (T, T) -> int, s: seq<T>)
  {
    && (forall a, b :: a in s && b in s ==> cmp(a, b) <= 0 || cmp(b, a) <= 0)
    && (forall a, b, c :: a in s && b in s && c in s && cmp(a, b) <= 0 && cmp(b, c) <= 0 ==> cmp(a, c) <= 0)
  }

  /** Puts `x` in front of the first element it does not come after. */
  function Insert<T>(x: T, s: seq<T>, cmp: (T, T) -> int): (r: seq<T>)
    ensures multiset(r) == multiset(s) + multiset{x}
    ensures |r| == |s| + 1
  {
    if s == [] || cmp(x, s[0]) <= 0 then [x] + s
    else
      assert s == [s[0]] + s[1..];
      [s[0]] + Insert(x, s[1..], cmp)
  }

  function SortBy<T>(s: seq<T>, cmp: (T, T) -> int): (r: seq<T>)
    ensures multiset(r) == multiset(s)
    ensures |r| == |s|
  {
    if s == [] then []
    else
      assert s == [s[0]] + s[1..];
      Insert(s[0], SortBy(s[1..], cmp), cmp)
  }

  lemma {:induction false} InsertSorted<T>(x: T, s: seq<T>, cmp: (T, T) -> int, all: seq<T>)
    requires x in all && forall y :: y in s ==> y in all
    requires TotalPreorderOn(cmp, all)
    requires SortedBy(s, cmp)
    ensures SortedBy(Insert(x, s, cmp), cmp)
    decreases |s|
  {
    if s == [] || cmp(x, s[0]) <= 0 {
      var r := [x] + s;
      forall i, j | 0 <= i < j < |r| ensures cmp(r[i], r[j]) <= 0 {
        if i == 0 && j > 1 {
          assert s[0] in all && s[j - 1] in all;
          assert cmp(s[0], s[j - 1]) <= 0;
        }
      }
    } else {
      assert s[0] in all;
      assert cmp(s[0], x) <= 0;
      InsertSorted(x, s[1..], cmp, all);
      var t := Insert(x, s[1..], cmp);
      var r := [s[0]] + t;
      assert multiset(t) == multiset(s[1..]) + multiset{x};
      forall i, j | 0 <= i < j < |r| ensures cmp(r[i], r[j]) <= 0 {
        if i == 0 {
          assert r[j] in multiset(t);
          assert r[j] == x || r[j] in s[1..];
          if r[j] != x {
            var k :| 0 <= k < |s[1..]| && s[1..][k] == r[j];
            assert s[k + 1] == r[j];
          }
        }
      }
    }
  }

  /** When `cmp` is a total preorder on its elements, the result is sorted by it. */
  lemma {:induction false} SortBySorted<T>(s: seq<T>, cmp: (T, T) -> int)
    requires TotalPreorderOn(cmp, s)
    ensures SortedBy(SortBy(s, cmp), cmp)
  {
    if s != [] {
      SortBySortedIn(s[1..], cmp, s);
      InsertSorted(s[0], SortBy(s[1..], cmp), cmp, s);
    }
  }

  lemma {:induction false} SortBySortedIn<T>(s: seq<T>, cmp: (T, T) -> int, all: seq<T>)
    requires forall y :: y in s ==> y in all
    requires TotalPreorderOn(cmp, all)
    ensures SortedBy(SortBy(s, cmp), cmp)
    ensures forall y :: y in SortBy(s, cmp) ==> y in all
    decreases |s|
  {
    if s != [] {
      SortBySortedIn(s[1..], cmp, all);
      InsertSorted(s[0], SortBy(s[1..], cmp), cmp, all);
      forall y | y in SortBy(s, cmp) ensures y in all {
        assert y in multiset(SortBy(s, cmp));
      }
    }
  }

  /** A comparator whose sign follows an integer key is a total preorder. */
  lemma KeyedIsPreorder<T>(cmp: (T, T) -> int, key: T -> int, s: seq<T>)
    requires forall a, b :: a in s && b in s ==> (cmp(a, b) <= 0 <==> key(a) <= key(b))
    ensures TotalPreorderOn(cmp, s)
  {
  }
}
