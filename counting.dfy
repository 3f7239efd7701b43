/**
 * Frequency tables as the statistics page builds them with a plain object:
 * `counts[key] = (counts[key] || 0) + 1` for every non-empty key, read back
 * with `Object.entries` in first-insertion order.
 */
module Counting {

  type Table = seq<(string, nat)>

  /** The count stored under `k`, or 0. */
  function Get(t: Table, k: string): nat
  {
    if t == [] then 0 else if t[0].0 == k then t[0].1 else Get(t[1..], k)
  }

  function Total(t: Table): nat
  {
    if t == [] then 0 else t[0].1 + Total(t[1..])
  }

  predicate DistinctKeys(t: Table)
  {
    forall i, j :: 0 <= i < j < |t| ==> t[i].0 != t[j].0
  }

  predicate Has(t: Table, k: string)
  {
    exists i :: 0 <= i < |t| && t[i].0 == k
  }

  /** `counts[k] = (counts[k] || 0) + 1`: an existing entry goes up by one, a new key is appended with 1. */
  function Bump(t: Table, k: string): (r: Table)
    ensures |r| == |t| || r == t + [(k, 1)]
  {
    if t == [] then [(k, 1)]
    else if t[0].0 == k then [(k, t[0].1 + 1)] + t[1..]
    else
      var rest := Bump(t[1..], k);
      assert t == [t[0]] + t[1..];
      assert rest == t[1..] + [(k, 1)] ==> [t[0]] + rest == t + [(k, 1)];
      [t[0]] + rest
  }

  lemma {:induction false} BumpGet(t: Table, k: string, x: string)
    ensures Get(Bump(t, k), x) == Get(t, x) + (if x == k then 1 else 0)
  {
    if t != [] && t[0].0 != k {
      BumpGet(t[1..], k, x);
    }
  }

  lemma {:induction false} BumpTotal(t: Table, k: string)
    ensures Total(Bump(t, k)) == Total(t) + 1
  {
    if t != [] && t[0].0 != k {
      BumpTotal(t[1..], k);
    } else if t != [] {
      assert Bump(t, k)[1..] == t[1..];
    }
  }

  lemma {:induction false} BumpHas(t: Table, k: string, x: string)
    ensures Has(Bump(t, k), x) <==> Has(t, x) || x == k
  {
    var r := Bump(t, k);
    if t == [] {
      assert r[0].0 == k;
    } else if t[0].0 == k {
      assert r[1..] == t[1..] && r[0].0 == k;
      if Has(t, x) {
        var i :| 0 <= i < |t| && t[i].0 == x;
        assert r[i].0 == x;
      }
      if Has(r, x) {
        var i :| 0 <= i < |r| && r[i].0 == x;
        assert t[i].0 == x;
      }
    } else {
      var rest := t[1..];
      BumpHas(rest, k, x);
      var br := Bump(rest, k);
      assert r == [t[0]] + br;
      if Has(t, x) && t[0].0 != x {
        var i :| 0 <= i < |t| && t[i].0 == x;
        assert rest[i - 1].0 == x;
      }
      if Has(br, x) {
        var j :| 0 <= j < |br| && br[j].0 == x;
        assert r[j + 1].0 == x;
      }
      if Has(r, x) {
        var i :| 0 <= i < |r| && r[i].0 == x;
        if i > 0 {
          assert br[i - 1].0 == x;
        }
      }
      if Has(rest, x) {
        var j :| 0 <= j < |rest| && rest[j].0 == x;
        assert t[j + 1].0 == x;
      }
      assert r[0].0 == t[0].0;
    }
  }

  lemma {:induction false} BumpDistinct(t: Table, k: string)
    requires DistinctKeys(t)
    ensures DistinctKeys(Bump(t, k))
  {
    var r := Bump(t, k);
    if t != [] && t[0].0 != k {
      var rest := t[1..];
      BumpDistinct(rest, k);
      assert r == [t[0]] + Bump(rest, k);
      forall i, j | 0 <= i < j < |r| ensures r[i].0 != r[j].0 {
        if i == 0 {
          var y := r[j].0;
          assert Bump(rest, k)[j - 1].0 == y;
          assert Has(Bump(rest, k), y);
          BumpHas(rest, k, y);
          if y != k {
            var m :| 0 <= m < |rest| && rest[m].0 == y;
            assert t[m + 1].0 == y;
          }
        } else {
          assert r[i] == Bump(rest, k)[i - 1] && r[j] == Bump(rest, k)[j - 1];
        }
      }
    } else if t != [] {
      forall i, j | 0 <= i < j < |r| ensures r[i].0 != r[j].0 {
        assert r[j] == t[j];
        if i > 0 {
          assert r[i] == t[i];
        }
      }
    }
  }

  lemma {:induction false} BumpPositive(t: Table, k: string)
    requires forall i :: 0 <= i < |t| ==> t[i].1 > 0
    ensures forall i :: 0 <= i < |Bump(t, k)| ==> Bump(t, k)[i].1 > 0
  {
    if t != [] && t[0].0 != k {
      BumpPositive(t[1..], k);
      assert Bump(t, k) == [t[0]] + Bump(t[1..], k);
    }
  }

  /** `if (key) counts[key] = (counts[key] || 0) + 1`: an empty key is not counted. */
  function Tally(t: Table, key: string): Table
  {
    if key == "" then t else Bump(t, key)
  }

  /** The table built from a sequence of key values, empty keys skipped. */
  function TableOf(keys: seq<string>): Table
  {
    if keys == [] then [] else Tally(TableOf(keys[..|keys| - 1]), keys[|keys| - 1])
  }

  /** The number of non-empty keys: what the page's `totalWith…` counter adds up. */
  function NonEmpty(keys: seq<string>): nat
  {
    if keys == [] then 0 else NonEmpty(keys[..|keys| - 1]) + (if keys[|keys| - 1] == "" then 0 else 1)
  }

  /**
   * The table holds each non-empty key once, with the number of times it
   * occurs, every count positive, and the counts add up to the non-empty keys.
   */
  lemma TableOfCounts(keys: seq<string>)
    ensures DistinctKeys(TableOf(keys))
    ensures forall k :: k != "" ==> Get(TableOf(keys), k) == multiset(keys)[k]
    ensures forall k :: Has(TableOf(keys), k) <==> k != "" && k in keys
    ensures Total(TableOf(keys)) == NonEmpty(keys) <= |keys|
    ensures forall i :: 0 <= i < |TableOf(keys)| ==> TableOf(keys)[i].1 > 0
  {
    TableOfDistinct(keys);
    TableOfGet(keys);
    TableOfHas(keys);
    TableOfTotal(keys);
    TableOfPositive(keys);
  }

  lemma {:induction false} TableOfDistinct(keys: seq<string>)
    ensures DistinctKeys(TableOf(keys))
  {
    if keys != [] {
      var init, last := keys[..|keys| - 1], keys[|keys| - 1];
      TableOfDistinct(init);
      if last != "" {
        BumpDistinct(TableOf(init), last);
      }
    }
  }

  lemma {:induction false} TableOfGet(keys: seq<string>)
    ensures forall k :: k != "" ==> Get(TableOf(keys), k) == multiset(keys)[k]
  {
    if keys != [] {
      var init, last := keys[..|keys| - 1], keys[|keys| - 1];
      TableOfGet(init);
      assert keys == init + [last];
      assert multiset(keys) == multiset(init) + multiset{last};
      if last != "" {
        forall k ensures Get(TableOf(keys), k) == Get(TableOf(init), k) + (if k == last then 1 else 0) {
          BumpGet(TableOf(init), last, k);
        }
      }
    }
  }

  lemma {:induction false} TableOfHas(keys: seq<string>)
    ensures forall k :: Has(TableOf(keys), k) <==> k != "" && k in keys
  {
    if keys != [] {
      var init, last := keys[..|keys| - 1], keys[|keys| - 1];
      TableOfHas(init);
      assert keys == init + [last];
      forall k ensures Has(TableOf(keys), k) <==> k != "" && k in keys {
        assert k in keys <==> k in init || k == last;
        if last != "" {
          BumpHas(TableOf(init), last, k);
        }
      }
    }
  }

  lemma {:induction false} TableOfTotal(keys: seq<string>)
    ensures Total(TableOf(keys)) == NonEmpty(keys) <= |keys|
  {
    if keys != [] {
      var init, last := keys[..|keys| - 1], keys[|keys| - 1];
      TableOfTotal(init);
      if last != "" {
        BumpTotal(TableOf(init), last);
      }
    }
  }

  lemma {:induction false} TableOfPositive(keys: seq<string>)
    ensures forall i :: 0 <= i < |TableOf(keys)| ==> TableOf(keys)[i].1 > 0
  {
    if keys != [] {
      var init, last := keys[..|keys| - 1], keys[|keys| - 1];
      TableOfPositive(init);
      if last != "" {
        BumpPositive(TableOf(init), last);
      }
    }
  }
}
