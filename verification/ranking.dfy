/**
 * Python's stable `sort(key=..., reverse=True)`, as used to order active
 * alerts and explanation factors: larger keys first, equal keys in their
 * input order. A key is a pair of numbers compared lexicographically (a
 * single-number key uses a constant second component).
 *
 * The sort is stated on indices: `Rank(keys, n)` lists 0 .. n-1 so that each
 * index comes before every index it outranks.
 */
module Ranking {

  type Key = (real, real)

  predicate KeyGt(a: Key, b: Key)
  {
    a.0 > b.0 || (a.0 == b.0 && a.1 > b.1)
  }

  /** Index `i` is placed before index `j`: a larger key, or an equal key earlier in the input. */
  predicate Before(keys: seq<Key>, i: nat, j: nat)
  {
    i < |keys| && j < |keys| && (KeyGt(keys[i], keys[j]) || (keys[i] == keys[j] && i < j))
  }

  /** Every earlier position of `r` is placed before every later one. */
  predicate Ranked(keys: seq<Key>, r: seq<nat>)
  {
    forall p, q | 0 <= p < q < |r| :: Before(keys, r[p], r[q])
  }

  /** Insert `j` before the first index whose key it strictly exceeds. */
  function Insert(keys: seq<Key>, r: seq<nat>, j: nat): (r': seq<nat>)
    ensures |r'| == |r| + 1
    ensures forall x :: x in r' <==> x == j || x in r
  {
    if |r| == 0 then [j]
    else if r[0] < |keys| && j < |keys| && KeyGt(keys[j], keys[r[0]]) then [j] + r
    else [r[0]] + Insert(keys, r[1..], j)
  }

  /** Inserting an index larger than all present keeps the ranking. */
  lemma {:induction false} InsertRanked(keys: seq<Key>, r: seq<nat>, j: nat)
    requires j < |keys| && Ranked(keys, r)
    requires forall x | x in r :: x < j
    ensures Ranked(keys, Insert(keys, r, j))
  {
    if |r| > 0 {
      var r' := Insert(keys, r, j);
      assert r[0] in r;
      if KeyGt(keys[j], keys[r[0]]) {
        assert r' == [j] + r;
        forall q | 0 < q < |r'| ensures Before(keys, r'[0], r'[q]) {
          assert r'[q] == r[q - 1];
          if q > 1 {
            assert Before(keys, r[0], r[q - 1]);
          }
        }
      } else {
        var tail := r[1..];
        assert Ranked(keys, tail) by {
          forall p, q | 0 <= p < q < |tail| ensures Before(keys, tail[p], tail[q]) {
            assert tail[p] == r[p + 1] && tail[q] == r[q + 1];
          }
        }
        assert forall x | x in tail :: x in r;
        InsertRanked(keys, tail, j);
        var rest := Insert(keys, tail, j);
        assert r' == [r[0]] + rest;
        forall q | 0 < q < |r'| ensures Before(keys, r'[0], r'[q]) {
          var x := r'[q];
          assert x == rest[q - 1];
          assert x in rest;
          if x != j {
            assert x in tail;
            var t :| 0 <= t < |tail| && tail[t] == x;
            assert Before(keys, r[0], r[t + 1]);
          }
        }
      }
    }
  }

  /** The indices 0 .. n-1 in ranked order, inserted one at a time in input order. */
  function Rank(keys: seq<Key>, n: nat): (r: seq<nat>)
    requires n <= |keys|
    ensures |r| == n
    ensures forall x: int :: x in r <==> 0 <= x < n
    ensures Ranked(keys, r)
  {
    if n == 0 then []
    else
      var prev := Rank(keys, n - 1);
      InsertRanked(keys, prev, n - 1);
      Insert(keys, prev, n - 1)
  }

  /** A ranking places each index once: no position repeats an index. */
  lemma RankedNoDup(keys: seq<Key>, r: seq<nat>)
    requires Ranked(keys, r)
    ensures forall p, q | 0 <= p < q < |r| :: r[p] != r[q]
  {
  }

  /** The output order reads the keys from the largest down. */
  lemma RankedDescending(keys: seq<Key>, r: seq<nat>, p: nat, q: nat)
    requires Ranked(keys, r) && p < q < |r|
    ensures r[p] < |keys| && r[q] < |keys| && !KeyGt(keys[r[q]], keys[r[p]])
    ensures r[p] < |keys| && r[q] < |keys| && (keys[r[p]] == keys[r[q]] ==> r[p] < r[q])
  {
    assert Before(keys, r[p], r[q]);
  }
}
