/**
 * Order-keeping selections over sequences: `Array.prototype.filter`, and
 * keeping the present results of a per-element step (`for … if … push`).
 */
module Collect {
  import opened Wrappers

  /** `s.filter(keep)`. */
  function Filter<T(!new)>(s: seq<T>, keep: T -> bool): (r: seq<T>)
    ensures |r| <= |s|
    ensures forall x :: x in r <==> x in s && keep(x)
    ensures multiset(r) <= multiset(s)
  {
    if s == [] then []
    else
      assert s == [s[0]] + s[1..];
      (if keep(s[0]) then [s[0]] else []) + Filter(s[1..], keep)
  }

  /** Filtering keeps order: it distributes over concatenation. */
  lemma {:induction false} FilterConcat<T(!new)>(a: seq<T>, b: seq<T>, keep: T -> bool)
    ensures Filter(a + b, keep) == Filter(a, keep) + Filter(b, keep)
  {
    if a == [] {
      assert a + b == b;
    } else {
      assert (a + b)[0] == a[0] && (a + b)[1..] == a[1..] + b;
      FilterConcat(a[1..], b, keep);
    }
  }

  /** Filtering by a test every element passes is the identity. */
  lemma {:induction false} FilterAll<T(!new)>(s: seq<T>, keep: T -> bool)
    requires forall x :: x in s ==> keep(x)
    ensures Filter(s, keep) == s
  {
    if s != [] {
      FilterAll(s[1..], keep);
      assert [s[0]] + s[1..] == s;
    }
  }

  function Collect<T, U>(s: seq<T>, f: T -> Option<U>): seq<U>
  {
    if s == [] then []
    else Collect(s[..|s| - 1], f) + (if f(s[|s| - 1]).Some? then [f(s[|s| - 1]).value] else [])
  }

  /** An element is collected exactly when some input yields it. */
  lemma {:induction false} CollectExactly<T, U>(s: seq<T>, f: T -> Option<U>, u: U)
    ensures u in Collect(s, f) <==> exists i :: 0 <= i < |s| && f(s[i]) == Some(u)
  {
    if s != [] {
      var init := s[..|s| - 1];
      CollectExactly(init, f, u);
      if u in Collect(init, f) {
        var i :| 0 <= i < |init| && f(init[i]) == Some(u);
        assert s[i] == init[i];
      }
      if exists i :: 0 <= i < |s| && f(s[i]) == Some(u) {
        var i :| 0 <= i < |s| && f(s[i]) == Some(u);
        if i < |init| {
          assert init[i] == s[i];
        }
      }
    }
  }

  /** Nothing is collected exactly when no input yields anything. */
  lemma {:induction false} CollectEmpty<T, U>(s: seq<T>, f: T -> Option<U>)
    ensures Collect(s, f) == [] <==> forall i :: 0 <= i < |s| ==> f(s[i]).None?
  {
    if s != [] {
      var init := s[..|s| - 1];
      CollectEmpty(init, f);
      if Collect(s, f) == [] {
        forall i | 0 <= i < |s| ensures f(s[i]).None? {
          if i < |init| {
            assert init[i] == s[i];
          }
        }
      }
    }
  }

  lemma {:induction false} CollectBounded<T, U>(s: seq<T>, f: T -> Option<U>)
    ensures |Collect(s, f)| <= |s|
  {
    if s != [] {
      CollectBounded(s[..|s| - 1], f);
    }
  }

  /** One more input adds its result, if it has one, at the end. */
  lemma CollectSnoc<T, U>(s: seq<T>, i: nat, f: T -> Option<U>)
    requires i < |s|
    ensures Collect(s[..i + 1], f) == Collect(s[..i], f) + (if f(s[i]).Some? then [f(s[i]).value] else [])
  {
    assert s[..i + 1][..i] == s[..i];
  }

  lemma CollectSingle<T, U>(x: T, f: T -> Option<U>)
    ensures Collect([x], f) == if f(x).Some? then [f(x).value] else []
  {
    assert [x][..0] == [];
  }

  /** Collecting keeps order: it distributes over concatenation. */
  lemma {:induction false} CollectConcat<T, U>(a: seq<T>, b: seq<T>, f: T -> Option<U>)
    ensures Collect(a + b, f) == Collect(a, f) + Collect(b, f)
    decreases |b|
  {
    if b == [] {
      assert a + b == a;
    } else {
      var init := b[..|b| - 1];
      assert (a + b)[..|a + b| - 1] == a + init;
      assert (a + b)[|a + b| - 1] == b[|b| - 1];
      CollectConcat(a, init, f);
    }
  }
}
