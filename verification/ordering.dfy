/** Python's `sorted(data, key=..., reverse=True)`: a stable sort into
    non-increasing order of the key. It is stated on positions: the result
    lists every position once, a larger key first and, among equal keys,
    the earlier position first. */
module Ordering {

  /** Position `a` goes before position `b`. */
  predicate Before(keys: seq<int>, a: int, b: int)
    requires 0 <= a < |keys| && 0 <= b < |keys|
  {
    keys[a] > keys[b] || (keys[a] == keys[b] && a < b)
  }

  /** Every pair of listed positions is in order. */
  predicate Ranked(keys: seq<int>, order: seq<nat>) {
    && (forall k :: 0 <= k < |order| ==> order[k] < |keys|)
    && (forall a, b :: 0 <= a < b < |order| ==> Before(keys, order[a], order[b]))
  }

  /** Puts position `i`, later than every listed one, after the listed
      positions whose key is at least its own. */
  function Insert(keys: seq<int>, order: seq<nat>, i: nat): seq<nat>
    decreases |order|
  {
    if |order| == 0 then [i]
    else if order[0] < |keys| && i < |keys| && keys[order[0]] < keys[i] then [i] + order
    else [order[0]] + Insert(keys, order[1..], i)
  }

  /** The order of the first `n` positions. */
  function Rank(keys: seq<int>, n: nat): seq<nat>
    decreases n
  {
    if n == 0 then [] else Insert(keys, Rank(keys, n - 1), n - 1)
  }

  /** Inserting adds exactly the new position. */
  lemma {:induction false} InsertMembers(keys: seq<int>, order: seq<nat>, i: nat)
    ensures |Insert(keys, order, i)| == |order| + 1
    ensures forall x :: x in Insert(keys, order, i) <==> x in order || x == i
    decreases |order|
  {
    if |order| > 0 && !(order[0] < |keys| && i < |keys| && keys[order[0]] < keys[i]) {
      InsertMembers(keys, order[1..], i);
      assert order == [order[0]] + order[1..];
    }
  }

  /** The tail of a ranked order is ranked. */
  lemma RankedTail(keys: seq<int>, order: seq<nat>)
    requires Ranked(keys, order) && |order| > 0
    ensures Ranked(keys, order[1..])
  {
    var rest := order[1..];
    forall a, b | 0 <= a < b < |rest|
      ensures Before(keys, rest[a], rest[b])
    {
      assert rest[a] == order[a + 1] && rest[b] == order[b + 1];
    }
  }

  /** A position that goes before every listed one can lead the order. */
  lemma RankedCons(keys: seq<int>, x: nat, rest: seq<nat>)
    requires Ranked(keys, rest) && x < |keys|
    requires forall k :: 0 <= k < |rest| ==> Before(keys, x, rest[k])
    ensures Ranked(keys, [x] + rest)
  {
    var r := [x] + rest;
    forall a, b | 0 <= a < b < |r|
      ensures Before(keys, r[a], r[b])
    {
      assert r[b] == rest[b - 1];
      if a > 0 {
        assert r[a] == rest[a - 1];
      }
    }
  }

  lemma {:induction false} InsertKeepsRanked(keys: seq<int>, order: seq<nat>, i: nat)
    requires Ranked(keys, order) && i < |keys|
    requires forall k :: 0 <= k < |order| ==> order[k] < i
    ensures |Insert(keys, order, i)| == |order| + 1
    ensures forall x :: x in Insert(keys, order, i) <==> x in order || x == i
    ensures Ranked(keys, Insert(keys, order, i))
    decreases |order|
  {
    InsertMembers(keys, order, i);
    if |order| > 0 {
      var rest := order[1..];
      if keys[order[0]] >= keys[i] {
        RankedTail(keys, order);
        InsertKeepsRanked(keys, rest, i);
        var tail := Insert(keys, rest, i);
        forall k | 0 <= k < |tail|
          ensures Before(keys, order[0], tail[k])
        {
          assert tail[k] in tail;
          if tail[k] != i {
            var c :| 0 <= c < |rest| && rest[c] == tail[k];
            assert order[c + 1] == tail[k];
          }
        }
        RankedCons(keys, order[0], tail);
      } else {
        forall k | 0 <= k < |order|
          ensures Before(keys, i, order[k])
        {
          if k > 0 {
            assert Before(keys, order[0], order[k]);
          }
        }
        RankedCons(keys, i, order);
      }
    }
  }

  lemma {:induction false} RankSpec(keys: seq<int>, n: nat)
    requires n <= |keys|
    ensures |Rank(keys, n)| == n
    ensures forall x :: x in Rank(keys, n) <==> 0 <= x < n
    ensures Ranked(keys, Rank(keys, n))
    decreases n
  {
    if n > 0 {
      RankSpec(keys, n - 1);
      var order := Rank(keys, n - 1);
      assert Rank(keys, n) == Insert(keys, order, n - 1);
      forall k | 0 <= k < |order|
        ensures order[k] < n - 1
      {
        assert order[k] in order;
      }
      InsertKeepsRanked(keys, order, n - 1);
    }
  }

  /** The sorted order of all positions: each listed exactly once, larger
      keys first, equal keys in their original order. */
  function Ranking(keys: seq<int>): (order: seq<nat>)
    ensures |order| == |keys|
    ensures forall i :: 0 <= i < |keys| ==> i in order
    ensures Ranked(keys, order)
  {
    RankSpec(keys, |keys|);
    Rank(keys, |keys|)
  }

  /** Listed positions are distinct, and keys do not increase along the
      order. */
  lemma RankedDescending(keys: seq<int>, order: seq<nat>)
    requires Ranked(keys, order)
    ensures forall a, b :: 0 <= a < b < |order| ==> order[a] != order[b] && keys[order[a]] >= keys[order[b]]
  {
  }
}
