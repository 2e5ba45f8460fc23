/** Adaptive dilated neighbour selection: the selection logic of `knn_metric` and
    `get_adptive_dilated_graph_feature`.

    Each point first takes its k*d nearest candidates, nearest first. A learned
    network (not modelled) turns the candidates' distances into a score s, the
    output of a sigmoid, so a real in [0, 1]. The score becomes a dilation level
    m in {1..5}, and the point keeps the candidates at positions 0, m, ..., (k-1)m.
    A position past the end of the candidate list makes `torch.gather` fail: the
    model returns None there. */
module Dilation {
  import opened Tensor
  import opened Distance
  import opened Ranking
  import opened Nearest
  import opened Batching
  import opened GraphFeature

  /** The projection `5 * metric + 0.5` applied to the sigmoid output. */
  function Metric(s: real): (r: real)
    ensures 0.0 <= s <= 1.0 ==> 0.5 <= r <= 5.5
  {
    5.0 * s + 0.5
  }

  /** `torch.where(cond, full_like(metric, m), full_like(metric, 0))` at one point. */
  function Indicator(cond: bool, m: nat): nat {
    if cond then m else 0
  }

  /** `value = value1 + value2 + value3 + value4 + value5`: the five half-open bands
      [m - 0.5, m + 0.5) (the last one closed) are disjoint, so inside [0.5, 5.5]
      exactly one fires and the sum is its level; outside, none fires. */
  function Level(metric: real): (m: nat)
    ensures 0.5 <= metric <= 5.5 ==>
      1 <= m <= 5 && (m as real) - 0.5 <= metric && (metric < (m as real) + 0.5 || m == 5)
    ensures !(0.5 <= metric <= 5.5) ==> m == 0
  {
    Indicator(0.5 <= metric < 1.5, 1)
    + Indicator(1.5 <= metric < 2.5, 2)
    + Indicator(2.5 <= metric < 3.5, 3)
    + Indicator(3.5 <= metric < 4.5, 4)
    + Indicator(4.5 <= metric <= 5.5, 5)
  }

  /** A score in [0, 1] always yields a level in 1..5, and a higher score never a
      lower level. */
  lemma LevelOfScore(s: real, s': real)
    requires 0.0 <= s <= s' <= 1.0
    ensures 1 <= Level(Metric(s)) <= 5
    ensures Level(Metric(s)) <= Level(Metric(s'))
  {
  }

  /** `arange(k) * value`: the candidate positions 0, m, 2m, ..., (k-1)m. */
  function SelectIndex(m: nat, k: nat): (r: seq<nat>)
    ensures |r| == k && forall j :: 0 <= j < k ==> r[j] == j * m
  {
    seq(k, j requires 0 <= j < k => j * m)
  }

  /** The selection positions never pass the last one, m * (k - 1), which is what
      the gather's bounds check compares with k * d; for m >= 1 they strictly
      increase, so no candidate is picked twice; for m = 0 they all pick the
      nearest candidate. */
  lemma SelectPositions(m: nat, k: nat)
    ensures forall j :: 0 <= j < k ==> SelectIndex(m, k)[j] <= m * (k - 1)
    ensures m >= 1 ==> forall p, q :: 0 <= p < q < k ==> SelectIndex(m, k)[p] < SelectIndex(m, k)[q]
    ensures m == 0 ==> forall j :: 0 <= j < k ==> SelectIndex(m, k)[j] == 0
  {
    var r := SelectIndex(m, k);
    forall j | 0 <= j < k
      ensures r[j] <= m * (k - 1)
    {
      MulMonotone(j, k - 1, m);
    }
    if m >= 1 {
      forall p, q | 0 <= p < q < k
        ensures r[p] < r[q]
      {
        MulStrict(p, q, m);
      }
    }
  }

  /** `torch.gather(idx, -1, select_idx)` on one row of candidates. */
  function DilatedSelect(cands: seq<nat>, m: nat, k: nat): (r: Option<seq<nat>>)
    ensures r.Some? <==> k == 0 || m * (k - 1) < |cands|
    ensures r.Some? ==> |r.value| == k && forall j :: 0 <= j < k ==> r.value[j] == cands[j * m]
  {
    if k == 0 || m * (k - 1) < |cands| then
      var sel := SelectIndex(m, k);
      assert forall j :: 0 <= j < k ==> sel[j] < |cands| by {
        forall j | 0 <= j < k
          ensures sel[j] < |cands|
        {
          StrideBelow(j, k, m, |cands|);
        }
      }
      Some(seq(k, j requires 0 <= j < k => cands[sel[j]]))
    else
      None
  }

  /** Position j of k, at stride m, stays below len when the last one, m * (k - 1), does. */
  lemma StrideBelow(j: int, k: int, m: int, len: int)
    requires 0 <= j < k && m >= 0 && m * (k - 1) < len
    ensures j * m < len
  {
    MulMonotone(j, k - 1, m);
  }

  /** Candidates of point i: `pairwise_distance.topk(k * d)`, nearest first. */
  function Candidates(x: Cloud, c: nat, d: nat, k: nat, i: nat): (r: seq<nat>)
    requires Dims(x, c) && k * d <= |x| && i < |x|
    ensures |r| == k * d && IsTopK(PairwiseDistance(x, c)[i], k * d, r)
  {
    TopK(PairwiseDistance(x, c)[i], k * d)
  }

  /** The dilation level of every point of the cloud. */
  function Levels(scores: seq<real>): (r: seq<nat>)
    ensures |r| == |scores| && forall i :: 0 <= i < |scores| ==> r[i] == Level(Metric(scores[i]))
    ensures (forall i :: 0 <= i < |scores| ==> 0.0 <= scores[i] <= 1.0) ==>
      forall i :: 0 <= i < |scores| ==> 1 <= r[i] <= 5
  {
    var r := seq(|scores|, i requires 0 <= i < |scores| => Level(Metric(scores[i])));
    assert (forall i :: 0 <= i < |scores| ==> 0.0 <= scores[i] <= 1.0) ==>
      forall i :: 0 <= i < |scores| ==> 1 <= r[i] <= 5 by {
      if forall i :: 0 <= i < |scores| ==> 0.0 <= scores[i] <= 1.0 {
        forall i | 0 <= i < |scores|
          ensures 1 <= r[i] <= 5
        {
          LevelOfScore(scores[i], scores[i]);
        }
      }
    }
    r
  }

  /** `knn_metric(x, d, ..., k)` for one cloud, given the learned scores: row i is the
      dilated selection from point i's candidates, or the whole call fails. */
  function KnnMetric(x: Cloud, c: nat, scores: seq<real>, d: nat, k: nat): (r: Option<seq<seq<nat>>>)
    requires Dims(x, c) && |scores| == |x| && k * d <= |x|
    ensures r.Some? <==> forall i :: 0 <= i < |x| ==>
      DilatedSelect(Candidates(x, c, d, k, i), Levels(scores)[i], k).Some?
    ensures r.Some? ==> |r.value| == |x| && forall i :: 0 <= i < |x| ==>
      r.value[i] == DilatedSelect(Candidates(x, c, d, k, i), Levels(scores)[i], k).value
  {
    var m := Levels(scores);
    var rows := seq(|x|, i requires 0 <= i < |x| => DilatedSelect(Candidates(x, c, d, k, i), m[i], k));
    assert forall i :: 0 <= i < |x| ==> rows[i] == DilatedSelect(Candidates(x, c, d, k, i), Levels(scores)[i], k);
    if forall i :: 0 <= i < |x| ==> rows[i].Some? then
      Some(seq(|x|, i requires 0 <= i < |x| => rows[i].value))
    else
      None
  }

  /** The bounds question: m * (k - 1) < k * d whenever 1 <= m <= d. */
  lemma StrideFits(m: nat, d: nat, k: nat)
    requires 1 <= m <= d && k >= 1
    ensures m * (k - 1) < k * d
  {
    MulMonotone(m, d, k - 1);
    assert k * d == (k - 1) * d + d;
  }

  /** With every score in [0, 1] and d >= 5 (the default d = 5 of
      `get_adptive_dilated_graph_feature`), the dilated gather never leaves the list. */
  lemma KnnMetricInBounds(x: Cloud, c: nat, scores: seq<real>, d: nat, k: nat)
    requires Dims(x, c) && |scores| == |x| && k * d <= |x|
    requires d >= 5 && forall i :: 0 <= i < |x| ==> 0.0 <= scores[i] <= 1.0
    ensures KnnMetric(x, c, scores, d, k).Some?
  {
    forall i | 0 <= i < |x|
      ensures DilatedSelect(Candidates(x, c, d, k, i), Levels(scores)[i], k).Some?
    {
      LevelOfScore(scores[i], scores[i]);
      if k > 0 {
        StrideFits(Levels(scores)[i], d, k);
      }
    }
  }

  /** Below d = 5 the gather can overflow: with k >= 5 a point whose score is 1
      reaches level 5 and position 5(k - 1) >= k * d. */
  lemma KnnMetricOverflow(x: Cloud, c: nat, scores: seq<real>, d: nat, k: nat, i: nat)
    requires Dims(x, c) && |scores| == |x| && k * d <= |x|
    requires d <= 4 && k >= 5 && i < |x| && scores[i] == 1.0
    ensures KnnMetric(x, c, scores, d, k).None?
  {
    assert Levels(scores)[i] == 5;
    MulMonotone(d, 4, k);
    assert !DilatedSelect(Candidates(x, c, d, k, i), Levels(scores)[i], k).Some?;
  }

  /** A successful dilated row keeps nearest-first order, stays inside the cloud,
      starts at the nearest candidate, and holds k distinct points when m >= 1. */
  lemma KnnMetricRow(x: Cloud, c: nat, scores: seq<real>, d: nat, k: nat, i: nat)
    requires Dims(x, c) && |scores| == |x| && k * d <= |x| && i < |x|
    requires KnnMetric(x, c, scores, d, k).Some?
    ensures var row := KnnMetric(x, c, scores, d, k).value[i];
      && |row| == k
      && InRange(row, |x|)
      && (k > 0 ==> 0 < |Candidates(x, c, d, k, i)| && row[0] == Candidates(x, c, d, k, i)[0])
      && (forall p, q :: 0 <= p < q < k ==> SqDist(x[i], x[row[p]]) <= SqDist(x[i], x[row[q]]))
      && (Levels(scores)[i] >= 1 ==> Distinct(row))
  {
    var cand := Candidates(x, c, d, k, i);
    var m := Levels(scores)[i];
    assert KnnMetric(x, c, scores, d, k).value[i] == DilatedSelect(cand, m, k).value;
    if k > 0 {
      MulMonotone(0, k - 1, m);
    }
    CandidatesInRange(x, c, d, k, i);
    DilatedInRange(cand, m, k, |x|);
    DilatedNearestFirst(x, c, d, k, i, m);
  }

  lemma CandidatesInRange(x: Cloud, c: nat, d: nat, k: nat, i: nat)
    requires Dims(x, c) && k * d <= |x| && i < |x|
    ensures InRange(Candidates(x, c, d, k, i), |x|)
  {
    assert IsTopK(PairwiseDistance(x, c)[i], k * d, Candidates(x, c, d, k, i));
  }

  lemma DilatedInRange(cand: seq<nat>, m: nat, k: nat, bound: nat)
    requires InRange(cand, bound) && DilatedSelect(cand, m, k).Some?
    ensures InRange(DilatedSelect(cand, m, k).value, bound)
  {
    var row := DilatedSelect(cand, m, k).value;
    forall j | 0 <= j < k
      ensures row[j] < bound
    {
      MulMonotone(j, k - 1, m);
    }
  }

  lemma DilatedNearestFirst(x: Cloud, c: nat, d: nat, k: nat, i: nat, m: nat)
    requires Dims(x, c) && k * d <= |x| && i < |x|
    requires DilatedSelect(Candidates(x, c, d, k, i), m, k).Some?
    ensures var row := DilatedSelect(Candidates(x, c, d, k, i), m, k).value;
      && InRange(row, |x|)
      && (forall p, q :: 0 <= p < q < k ==> SqDist(x[i], x[row[p]]) <= SqDist(x[i], x[row[q]]))
      && (m >= 1 ==> Distinct(row))
  {
    var cand := Candidates(x, c, d, k, i);
    var row := DilatedSelect(cand, m, k).value;
    var key := PairwiseDistance(x, c)[i];
    assert IsTopK(key, k * d, cand);
    CandidatesInRange(x, c, d, k, i);
    DilatedInRange(cand, m, k, |x|);
    forall p, q | 0 <= p < q < k
      ensures SqDist(x[i], x[row[p]]) <= SqDist(x[i], x[row[q]])
      ensures m >= 1 ==> row[p] != row[q]
    {
      DilatedPair(key, cand, m, k, p, q);
    }
  }

  /** Two picks of a dilated row keep the candidates' order, and differ when m >= 1. */
  lemma DilatedPair(key: seq<int>, cand: seq<nat>, m: nat, k: nat, p: nat, q: nat)
    requires IsTopK(key, |cand|, cand) && DilatedSelect(cand, m, k).Some? && p < q < k
    ensures var row := DilatedSelect(cand, m, k).value;
      row[p] < |key| && row[q] < |key| && key[row[p]] >= key[row[q]] && (m >= 1 ==> row[p] != row[q])
  {
    MulMonotone(p, q, m);
    MulMonotone(q, k - 1, m);
    if m >= 1 {
      MulStrict(p, q, m);
    }
    assert p * m == q * m || key[cand[p * m]] >= key[cand[q * m]];
  }

  lemma MulStrict(p: nat, q: nat, m: nat)
    requires p < q && m >= 1
    ensures p * m < q * m
  {
    MulMonotone(p + 1, q, m);
    assert (p + 1) * m == p * m + m;
  }

  /** Every row of a successful `knn_metric` holds k indices into the cloud. */
  lemma KnnMetricShape(x: Cloud, c: nat, scores: seq<real>, d: nat, k: nat)
    requires Dims(x, c) && |scores| == |x| && k * d <= |x|
    requires KnnMetric(x, c, scores, d, k).Some?
    ensures forall i :: 0 <= i < |x| ==>
      |KnnMetric(x, c, scores, d, k).value[i]| == k && InRange(KnnMetric(x, c, scores, d, k).value[i], |x|)
  {
    forall i | 0 <= i < |x|
      ensures |KnnMetric(x, c, scores, d, k).value[i]| == k
      ensures InRange(KnnMetric(x, c, scores, d, k).value[i], |x|)
    {
      KnnMetricRow(x, c, scores, d, k, i);
    }
  }

  /** `knn_metric` over a batch: fails as soon as one cloud's gather fails. */
  function BatchKnnMetric(xs: Batch, n: nat, c: nat, scores: seq<seq<real>>, d: nat, k: nat): (r: Option<seq<seq<seq<nat>>>>)
    requires BatchShape(xs, n, c) && |scores| == |xs| && k * d <= n
    requires forall b :: 0 <= b < |xs| ==> |scores[b]| == n
    ensures r.Some? <==> forall b :: 0 <= b < |xs| ==> KnnMetric(xs[b], c, scores[b], d, k).Some?
    ensures r.Some? ==> Shaped(r.value, |xs|, n, k) && WithinCloud(r.value, n)
    ensures r.Some? ==> forall b :: 0 <= b < |xs| ==> r.value[b] == KnnMetric(xs[b], c, scores[b], d, k).value
  {
    var rows := seq(|xs|, b requires 0 <= b < |xs| => KnnMetric(xs[b], c, scores[b], d, k));
    if forall b :: 0 <= b < |xs| ==> rows[b].Some? then
      var r := seq(|xs|, b requires 0 <= b < |xs| => rows[b].value);
      assert forall b :: 0 <= b < |xs| ==> rows[b] == KnnMetric(xs[b], c, scores[b], d, k) && r[b] == rows[b].value;
      assert Shaped(r, |xs|, n, k) && WithinCloud(r, n) by {
        forall b | 0 <= b < |xs|
          ensures |r[b]| == n
          ensures forall i :: 0 <= i < n ==> |r[b][i]| == k && InRange(r[b][i], n)
        {
          KnnMetricShape(xs[b], c, scores[b], d, k);
        }
      }
      Some(r)
    else
      None
  }

  /** `get_adptive_dilated_graph_feature(x, ..., d, k, idx)`: the dilated indices (or
      the given ones) feed exactly the gather and edge layout of `get_graph_feature`. */
  function GetAdaptiveDilatedGraphFeature(xs: Batch, n: nat, c: nat, scores: seq<seq<real>>, d: nat, k: nat,
                                          idx: Option<seq<seq<seq<nat>>>>): (r: Option<seq<seq<seq<Point>>>>)
    requires BatchShape(xs, n, c) && |scores| == |xs| && (idx.None? ==> k * d <= n)
    requires forall b :: 0 <= b < |xs| ==> |scores[b]| == n
    requires idx.Some? ==> Shaped(idx.value, |xs|, n, k) && WithinCloud(idx.value, n)
    ensures r.None? <==> idx.None? && BatchKnnMetric(xs, n, c, scores, d, k).None?
    ensures r.Some? ==> Shaped(r.value, |xs|, n, k)
    ensures r.Some? ==>
      var id := if idx.Some? then idx.value else BatchKnnMetric(xs, n, c, scores, d, k).value;
      forall b, i, j :: 0 <= b < |xs| && 0 <= i < n && 0 <= j < k ==>
        id[b][i][j] < n && r.value[b][i][j] == EdgeOf(xs[b][id[b][i][j]], xs[b][i])
  {
    var id := if idx.Some? then idx else BatchKnnMetric(xs, n, c, scores, d, k);
    if id.None? then None
    else
      var r := GetGraphFeature(xs, n, c, k, id);
      assert Neighbours(xs, n, c, k, id) == id.value;
      Some(r)
  }

  /** Given indices skip `knn_metric` altogether, so k * d may exceed N. */
  lemma GivenIndicesSkipMetric()
    ensures var xs := [[[0], [1], [2], [3]]];
      var id := [[[1, 2], [0, 2], [1, 3], [2, 1]]];
      GetAdaptiveDilatedGraphFeature(xs, 4, 1, [[0.0, 0.0, 0.0, 0.0]], 5, 2, Some(id)).Some?
  {
  }
}
