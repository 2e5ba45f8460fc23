/** k-nearest-neighbour search: `knn` (nearest first) and `knn_point` (unordered).

    `knn` ranks each row of the negated squared-distance matrix with `topk`
    (largest first), so its answer lists the k nearest points nearest first.
    No entry is masked, so a point competes as its own neighbour at distance 0.
    `knn_point` ranks `square_distance` with largest=False and sorted=False: the
    same nearest set, in an order the framework does not fix. */
module Nearest {
  import opened Tensor
  import opened Distance
  import opened Ranking

  /** r holds k distinct indices into d, none farther than any index left out. */
  predicate IsNearestSet(d: seq<int>, k: nat, r: seq<nat>) {
    && |r| == k
    && InRange(r, |d|)
    && Distinct(r)
    && forall t, j :: 0 <= t < k && 0 <= j < |d| && j !in r ==> d[r[t]] <= d[j]
  }

  /** `knn(x, k)`: row i is `topk` of row i of `-xx - inner - xx^T`. */
  function Knn(x: Cloud, c: nat, k: nat): (r: seq<seq<nat>>)
    requires Dims(x, c) && k <= |x|
    ensures |r| == |x|
    ensures forall i :: 0 <= i < |x| ==> IsTopK(PairwiseDistance(x, c)[i], k, r[i])
  {
    var p := PairwiseDistance(x, c);
    seq(|x|, i requires 0 <= i < |x| => TopK(p[i], k))
  }

  /** Row i of `knn` in terms of distances: exactly k distinct indices in [0, N),
      ordered nearest first, each at least as close to x[i] as any index left out. */
  lemma KnnNearestFirst(x: Cloud, c: nat, k: nat, i: nat)
    requires Dims(x, c) && k <= |x| && i < |x|
    ensures |Knn(x, c, k)[i]| == k && InRange(Knn(x, c, k)[i], |x|) && Distinct(Knn(x, c, k)[i])
    ensures forall p, q :: 0 <= p < q < k ==>
      SqDist(x[i], x[Knn(x, c, k)[i][p]]) <= SqDist(x[i], x[Knn(x, c, k)[i][q]])
    ensures IsNearestSet(DistancesFrom(x[i], x), k, Knn(x, c, k)[i])
  {
    var row := Knn(x, c, k)[i];
    var key := PairwiseDistance(x, c)[i];
    var d := DistancesFrom(x[i], x);
    assert key == Negate(d) by {
      forall j | 0 <= j < |x|
        ensures key[j] == Negate(d)[j]
      {
        assert key[j] == -SqDist(x[i], x[j]);
      }
    }
    assert IsTopK(Negate(d), k, row);
    TopKIsNearestSet(d, k, row);
    forall p, q | 0 <= p < q < k
      ensures SqDist(x[i], x[row[p]]) <= SqDist(x[i], x[row[q]])
    {
      assert key[row[p]] >= key[row[q]];
    }
  }

  /** Row i of `knn` as a nearest set that is sorted by the distance row of point i. */
  lemma KnnSorted(x: Cloud, c: nat, k: nat, i: nat)
    requires Dims(x, c) && k <= |x| && i < |x|
    ensures var d := DistancesFrom(x[i], x);
      var id := Knn(x, c, k)[i];
      && IsNearestSet(d, k, id)
      && forall p, q :: 0 <= p < q < k ==> d[id[p]] <= d[id[q]]
  {
    KnnNearestFirst(x, c, k, i);
  }

  /** With no duplicate points, a point is its own nearest neighbour: position 0 of
      its row is itself, so positions 1, 2, ... are the nearest OTHER points. */
  lemma KnnSelfFirst(x: Cloud, c: nat, k: nat, i: nat)
    requires Dims(x, c) && 0 < k <= |x| && i < |x|
    requires DistinctPoints(x)
    ensures Knn(x, c, k)[i][0] == i
    ensures forall t :: 0 < t < k ==> Knn(x, c, k)[i][t] != i
  {
    var row := Knn(x, c, k)[i];
    var key := PairwiseDistance(x, c)[i];
    assert IsTopK(key, k, row);
    var n := row[0];
    SqDistZero(x[i], x[i]);
    SqDistNonNegative(x[i], x[n]);
    // key[i] == 0 is the largest score a row can hold, so row[0] scores 0 as well.
    assert key[n] >= key[i] by {
      if i in row {
        var t :| 0 <= t < k && row[t] == i;
        assert t == 0 || key[row[0]] >= key[row[t]];
      }
    }
    SqDistZero(x[i], x[n]);
    assert x[i] == x[n];
    assert n == i;
  }

  /** `knn_point(nsample, xyz, new_xyz)`: for each query point, `topk` of its row of
      `square_distance` with largest=False, ranked here on the negated row. */
  function KnnPoint(nsample: nat, xyz: Cloud, newXyz: Cloud, c: nat): (r: seq<seq<nat>>)
    requires Dims(xyz, c) && Dims(newXyz, c) && nsample <= |xyz|
    ensures |r| == |newXyz|
    ensures forall s :: 0 <= s < |newXyz| ==> IsNearestSet(SquareDistance(newXyz, xyz, c)[s], nsample, r[s])
  {
    var d := SquareDistance(newXyz, xyz, c);
    seq(|newXyz|, s requires 0 <= s < |newXyz| =>
      var row := TopK(Negate(d[s]), nsample);
      TopKIsNearestSet(d[s], nsample, row);
      row)
  }

  lemma TopKIsNearestSet(d: seq<int>, k: nat, r: seq<nat>)
    requires IsTopK(Negate(d), k, r)
    ensures IsNearestSet(d, k, r)
  {
    var key := Negate(d);
    forall t, j | 0 <= t < k && 0 <= j < |d| && j !in r
      ensures d[r[t]] <= d[j]
    {
      assert key[r[t]] >= key[j];
    }
  }

  /** `knn_point` in terms of distances: every query gets nsample distinct points of
      xyz, none farther from it than a point left out. */
  lemma KnnPointNearest(nsample: nat, xyz: Cloud, newXyz: Cloud, c: nat, s: nat)
    requires Dims(xyz, c) && Dims(newXyz, c) && nsample <= |xyz| && s < |newXyz|
    ensures IsNearestSet(DistancesFrom(newXyz[s], xyz), nsample, KnnPoint(nsample, xyz, newXyz, c)[s])
  {
    var d := SquareDistance(newXyz, xyz, c)[s];
    forall j | 0 <= j < |xyz|
      ensures d[j] == SqDist(newXyz[s], xyz[j])
    {
      SquareDistanceIsSqDist(newXyz, xyz, c, s, j);
    }
    assert d == DistancesFrom(newXyz[s], xyz);
  }

  /** No two entries of the row are equal. */
  predicate NoTies(d: seq<int>) {
    forall p, q :: 0 <= p < q < |d| ==> d[p] != d[q]
  }

  /** Without tied distances the nearest set is unique: any two valid answers hold
      the same indices, whatever their order. */
  lemma {:induction false} NearestSetUnique(d: seq<int>, k: nat, r1: seq<nat>, r2: seq<nat>)
    requires NoTies(d)
    requires IsNearestSet(d, k, r1) && IsNearestSet(d, k, r2)
    ensures forall y :: y in r1 <==> y in r2
  {
    NearestSetIncluded(d, k, r1, r2);
    NearestSetIncluded(d, k, r2, r1);
  }

  lemma NearestSetIncluded(d: seq<int>, k: nat, r1: seq<nat>, r2: seq<nat>)
    requires NoTies(d)
    requires IsNearestSet(d, k, r1) && IsNearestSet(d, k, r2)
    ensures forall y :: y in r1 ==> y in r2
  {
    forall y | y in r1
      ensures y in r2
    {
      if y !in r2 {
        // Every z of r2 is strictly closer than y; so every z of r2 lies in r1,
        // and r1 would need k + 1 distinct entries.
        assert forall z :: z in r2 ==> z in r1 by {
          forall z | z in r2
            ensures z in r1
          {
            var t :| 0 <= t < k && r2[t] == z;
            var u :| 0 <= u < k && r1[u] == y;
            assert d[z] <= d[y];
            assert d[z] != d[y] by {
              if z < y { assert d[z] != d[y]; } else { assert d[y] != d[z]; }
            }
            assert z in r1;
          }
        }
        assert Distinct([y] + r2) by {
          forall p, q | 0 <= p < q < |[y] + r2|
            ensures ([y] + r2)[p] != ([y] + r2)[q]
          {
            if p == 0 {
              assert ([y] + r2)[q] == r2[q - 1];
            }
          }
        }
        assert forall p :: 0 <= p < |[y] + r2| ==> ([y] + r2)[p] in r1 by {
          forall p | 0 <= p < |[y] + r2|
            ensures ([y] + r2)[p] in r1
          {
            if p > 0 {
              assert ([y] + r2)[p] == r2[p - 1];
              assert r2[p - 1] in r2;
            }
          }
        }
        DistinctSubsetLength([y] + r2, r1);
        assert false;
      }
    }
  }

  /** `knn_point` queried with the cloud itself finds, when no two distances in the
      row tie, the same neighbours as `knn`, only without their order. */
  lemma KnnPointSameSetAsKnn(x: Cloud, c: nat, k: nat, i: nat)
    requires Dims(x, c) && k <= |x| && i < |x|
    requires NoTies(DistancesFrom(x[i], x))
    ensures forall y :: y in KnnPoint(k, x, x, c)[i] <==> y in Knn(x, c, k)[i]
  {
    KnnNearestFirst(x, c, k, i);
    KnnPointNearest(k, x, x, c, i);
    NearestSetUnique(DistancesFrom(x[i], x), k, KnnPoint(k, x, x, c)[i], Knn(x, c, k)[i]);
  }
}
