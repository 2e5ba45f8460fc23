/** `torch.topk` over one row of scores, as the neighbour search uses it.

    The framework leaves the order of tied scores unspecified, so the property
    every caller relies on is the relation IsTopK, which any tie order satisfies.
    TopK is one concrete choice (an insertion sort of the indices by score) and
    is proved to satisfy that relation. */
module Ranking {
  import opened Tensor

  /** Indices listed by non-increasing score. */
  predicate Descending(key: seq<int>, s: seq<nat>)
    requires InRange(s, |key|)
  {
    forall p, q :: 0 <= p < q < |s| ==> key[s[p]] >= key[s[q]]
  }

  /** r is a valid answer of `topk(key, k)` with largest=True, sorted=True:
      k distinct indices in range, best first, none beaten by an index left out. */
  predicate IsTopK(key: seq<int>, k: nat, r: seq<nat>) {
    && |r| == k
    && InRange(r, |key|)
    && Distinct(r)
    && Descending(key, r)
    && forall t, j :: 0 <= t < k && 0 <= j < |key| && j !in r ==> key[r[t]] >= key[j]
  }

  /** Insert index i into s before the first entry whose score does not exceed its own. */
  function Insert(key: seq<int>, i: nat, s: seq<nat>): (r: seq<nat>)
    requires i < |key| && InRange(s, |key|)
    ensures |r| == |s| + 1 && InRange(r, |key|)
    ensures forall y :: y in r <==> y == i || y in s
    decreases |s|
  {
    if s == [] || key[i] >= key[s[0]] then
      [i] + s
    else
      assert forall y :: y in s[1..] ==> y in s;
      [s[0]] + Insert(key, i, s[1..])
  }

  /** Inserting into a descending list keeps it descending. */
  lemma {:induction false} InsertDescending(key: seq<int>, i: nat, s: seq<nat>)
    requires i < |key| && InRange(s, |key|) && Descending(key, s)
    ensures Descending(key, Insert(key, i, s))
    decreases |s|
  {
    if s != [] && key[i] < key[s[0]] {
      InsertDescending(key, i, s[1..]);
      var rest := Insert(key, i, s[1..]);
      HeadDominates(key, i, s, rest);
      assert Insert(key, i, s) == [s[0]] + rest;
    }
  }

  /** Inserting a new index into a duplicate-free list keeps it duplicate-free. */
  lemma {:induction false} InsertDistinct(key: seq<int>, i: nat, s: seq<nat>)
    requires i < |key| && InRange(s, |key|) && Distinct(s) && i !in s
    ensures Distinct(Insert(key, i, s))
    decreases |s|
  {
    if s != [] && key[i] < key[s[0]] {
      assert i !in s[1..];
      InsertDistinct(key, i, s[1..]);
      var rest := Insert(key, i, s[1..]);
      assert s[0] !in s[1..];
      assert s[0] !in rest;
      assert Insert(key, i, s) == [s[0]] + rest;
    }
  }

  /** Everything inserted behind the head of a descending list scores no higher
      than that head. */
  lemma HeadDominates(key: seq<int>, i: nat, s: seq<nat>, rest: seq<nat>)
    requires i < |key| && InRange(s, |key|) && Descending(key, s) && |s| > 0
    requires key[i] < key[s[0]] && InRange(rest, |key|)
    requires forall y :: y in rest <==> y == i || y in s[1..]
    ensures forall q :: 0 <= q < |rest| ==> key[s[0]] >= key[rest[q]]
  {
    forall q | 0 <= q < |rest|
      ensures key[s[0]] >= key[rest[q]]
    {
      assert rest[q] in rest;
      if rest[q] != i {
        var u :| 0 <= u < |s[1..]| && s[1..][u] == rest[q];
        assert s[u + 1] == rest[q];
      }
    }
  }

  /** The indices 0 .. n-1 ordered by non-increasing score. */
  function SortIndices(key: seq<int>, n: nat): (r: seq<nat>)
    requires n <= |key|
    ensures |r| == n && InRange(r, n) && Distinct(r) && Descending(key, r)
    ensures forall j :: 0 <= j < n ==> j in r
    decreases n
  {
    if n == 0 then []
    else
      var s := SortIndices(key, n - 1);
      var r := Insert(key, n - 1, s);
      InsertDescending(key, n - 1, s);
      InsertDistinct(key, n - 1, s);
      SortedStep(s, r, n);
      r
  }

  /** Adding index n-1 to a list holding exactly the indices below n-1 gives one
      holding exactly the indices below n. */
  lemma SortedStep(s: seq<nat>, r: seq<nat>, n: nat)
    requires n > 0 && InRange(s, n - 1) && forall j :: 0 <= j < n - 1 ==> j in s
    requires forall y :: y in r <==> y == n - 1 || y in s
    ensures InRange(r, n) && forall j :: 0 <= j < n ==> j in r
  {
    forall t | 0 <= t < |r|
      ensures r[t] < n
    {
      assert r[t] in r;
    }
  }

  /** `topk(key, k)`: the first k of the sorted indices. The framework rejects k > |key|. */
  function TopK(key: seq<int>, k: nat): (r: seq<nat>)
    requires k <= |key|
    ensures IsTopK(key, k, r)
  {
    var all := SortIndices(key, |key|);
    var r := all[..k];
    assert forall j :: 0 <= j < |key| && j !in r ==> exists p :: k <= p < |key| && all[p] == j by {
      forall j | 0 <= j < |key| && j !in r
        ensures exists p :: k <= p < |key| && all[p] == j
      {
        assert j in all;
        var p :| 0 <= p < |key| && all[p] == j;
        assert p >= k;
      }
    }
    r
  }

  /** `topk(key, k, largest=False)`: the k smallest scores, by ranking the negated row. */
  function Negate(key: seq<int>): (r: seq<int>)
    ensures |r| == |key| && forall j :: 0 <= j < |key| ==> r[j] == -key[j]
  {
    seq(|key|, j requires 0 <= j < |key| => -key[j])
  }

  /** The answer is determined up to ties: two valid answers hold the same scores,
      position by position. */
  lemma TopKScoresUnique(key: seq<int>, k: nat, r1: seq<nat>, r2: seq<nat>, t: nat)
    requires IsTopK(key, k, r1) && IsTopK(key, k, r2) && t < k
    ensures key[r1[t]] == key[r2[t]]
  {
    TopKScoreAtMost(key, k, r1, r2, t);
    TopKScoreAtMost(key, k, r2, r1, t);
  }

  lemma TopKScoreAtMost(key: seq<int>, k: nat, r1: seq<nat>, r2: seq<nat>, t: nat)
    requires IsTopK(key, k, r1) && IsTopK(key, k, r2) && t < k
    ensures key[r1[t]] <= key[r2[t]]
  {
    if key[r1[t]] > key[r2[t]] {
      // The t+1 indices r1[0..t] all score above r2[t], so all sit in r2[..t].
      var front := r1[..t + 1];
      forall p | 0 <= p <= t
        ensures front[p] in r2[..t]
      {
        assert key[r1[p]] >= key[r1[t]];
        assert r1[p] in r2;
        var q :| 0 <= q < k && r2[q] == r1[p];
        assert q < t;
      }
      DistinctSubsetLength(front, r2[..t]);
    }
  }
}

