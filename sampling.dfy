/** `farthest_point_sample`: iterative farthest-point sampling.

    Every cloud keeps, for each of its points, the squared distance to the nearest
    centroid chosen so far (initially the sentinel 1e10). Each round records the
    current farthest point as a centroid, lowers the distances by the squared
    distances to it, and picks the point whose distance is now largest as the next
    farthest. All clouds of the batch advance in lockstep. The random start
    (`torch.randint`) is a parameter. */
module Sampling {
  import opened Tensor
  import opened Distance

  /** The initial value `1e10` of every entry of `distance`. */
  const Far: int := 10000000000

  /** Entry j of `distance` once the centroids `chosen` have been taken in order:
      `torch.min` of the sentinel and every squared distance from point j to a
      centroid. */
  function MinDist(x: Cloud, chosen: seq<nat>, j: nat): (r: int)
    requires Dims(x, 3) && InRange(chosen, |x|) && j < |x|
    ensures r <= Far
    ensures forall t :: 0 <= t < |chosen| ==> r <= SqDist(x[j], x[chosen[t]])
    ensures r == Far || exists t :: 0 <= t < |chosen| && r == SqDist(x[j], x[chosen[t]])
    decreases |chosen|
  {
    if |chosen| == 0 then Far
    else
      var last := chosen[|chosen| - 1];
      var before := MinDist(x, chosen[..|chosen| - 1], j);
      var d := SqDist(x[j], x[last]);
      if d < before then d else before
  }

  /** The whole `distance` row of one cloud. */
  function Distances(x: Cloud, chosen: seq<nat>): (r: seq<int>)
    requires Dims(x, 3) && InRange(chosen, |x|)
    ensures |r| == |x|
  {
    seq(|x|, j requires 0 <= j < |x| => MinDist(x, chosen, j))
  }

  /** `torch.max(distance, -1)[1]`: an index of a largest entry. */
  predicate IsArgMax(d: seq<int>, r: nat) {
    r < |d| && forall j :: 0 <= j < |d| ==> d[j] <= d[r]
  }

  /** The first index of a largest entry. */
  function ArgMax(d: seq<int>): (r: nat)
    requires |d| > 0
    ensures IsArgMax(d, r)
    ensures forall j :: 0 <= j < r ==> d[j] < d[r]
    decreases |d|
  {
    if |d| == 1 then 0
    else
      var r := ArgMax(d[..|d| - 1]);
      if d[|d| - 1] > d[r] then |d| - 1 else r
  }

  /** What one cloud's column of `centroids` holds after the loop: it starts at the
      given point and every later centroid is a farthest point from those before it. */
  predicate FpsRun(x: Cloud, start: nat, cents: seq<nat>)
    requires Dims(x, 3)
  {
    && InRange(cents, |x|)
    && (|cents| > 0 ==> cents[0] == start)
    && forall t :: 1 <= t < |cents| ==> IsArgMax(Distances(x, cents[..t]), cents[t])
  }

  /** `torch.min(distance, dist)`: the elementwise minimum. */
  function Lowered(d: seq<int>, dist: seq<int>): (r: seq<int>)
    requires |d| == |dist|
    ensures |r| == |d|
    ensures forall j :: 0 <= j < |d| ==> r[j] <= d[j] && r[j] <= dist[j] && (r[j] == d[j] || r[j] == dist[j])
  {
    seq(|d|, j requires 0 <= j < |d| => if dist[j] < d[j] then dist[j] else d[j])
  }

  /** One round of the loop turns the distances to `chosen` into the distances to
      `chosen + [f]`. */
  lemma LoweredDistances(x: Cloud, chosen: seq<nat>, f: nat)
    requires Dims(x, 3) && InRange(chosen, |x|) && f < |x|
    ensures InRange(chosen + [f], |x|)
    ensures Lowered(Distances(x, chosen), DistancesFrom(x[f], x)) == Distances(x, chosen + [f])
  {
    var c := chosen + [f];
    assert c[..|c| - 1] == chosen;
    var lhs := Lowered(Distances(x, chosen), DistancesFrom(x[f], x));
    forall j | 0 <= j < |x|
      ensures lhs[j] == MinDist(x, c, j)
    {
    }
  }

  /** Appending a farthest point to a valid run gives a valid run. */
  lemma FpsStep(x: Cloud, start: nat, before: seq<nat>, f: nat)
    requires Dims(x, 3) && f < |x| && FpsRun(x, start, before)
    requires |before| == 0 ==> f == start
    requires |before| > 0 ==> IsArgMax(Distances(x, before), f)
    ensures FpsRun(x, start, before + [f])
  {
    var c := before + [f];
    assert c[..|before|] == before;
    forall t | 1 <= t < |c|
      ensures IsArgMax(Distances(x, c[..t]), c[t])
    {
      if t < |before| {
        assert c[..t] == before[..t];
      }
    }
  }

  /** Every entry of `distance` is non-negative. */
  lemma MinDistNonNegative(x: Cloud, chosen: seq<nat>, j: nat)
    requires Dims(x, 3) && InRange(chosen, |x|) && j < |x|
    ensures MinDist(x, chosen, j) >= 0
  {
    var r := MinDist(x, chosen, j);
    if r != Far {
      var t :| 0 <= t < |chosen| && r == SqDist(x[j], x[chosen[t]]);
      SqDistNonNegative(x[j], x[chosen[t]]);
    }
  }

  /** A point already chosen as a centroid is at distance 0. */
  lemma ZeroAtChosen(x: Cloud, chosen: seq<nat>, t: nat)
    requires Dims(x, 3) && InRange(chosen, |x|) && t < |chosen|
    ensures MinDist(x, chosen, chosen[t]) == 0
  {
    MinDistNonNegative(x, chosen, chosen[t]);
    SqDistZero(x[chosen[t]], x[chosen[t]]);
  }

  /** Distances only shrink as centroids are added. */
  lemma DistancesShrink(x: Cloud, cents: seq<nat>, s: nat, t: nat, j: nat)
    requires Dims(x, 3) && InRange(cents, |x|) && s <= t <= |cents| && j < |x|
    ensures MinDist(x, cents[..t], j) <= MinDist(x, cents[..s], j)
  {
    var before := MinDist(x, cents[..s], j);
    if before != Far {
      var u :| 0 <= u < s && before == SqDist(x[j], x[cents[..s][u]]);
      assert cents[..t][u] == cents[..s][u];
    }
  }

  /** If the largest distance is 0 in a cloud without duplicate points, every point
      has already been chosen. */
  lemma ZeroMaxMeansAllChosen(x: Cloud, chosen: seq<nat>, f: nat)
    requires Dims(x, 3) && DistinctPoints(x) && InRange(chosen, |x|)
    requires IsArgMax(Distances(x, chosen), f)
    ensures Distances(x, chosen)[f] == 0 ==> |x| <= |chosen|
  {
    var d := Distances(x, chosen);
    if d[f] == 0 {
      var all := seq(|x|, j requires 0 <= j < |x| => j);
      forall p | 0 <= p < |x|
        ensures all[p] in chosen
      {
        MinDistNonNegative(x, chosen, p);
        assert d[p] == 0;
        var u :| 0 <= u < |chosen| && 0 == SqDist(x[p], x[chosen[u]]);
        SqDistZero(x[p], x[chosen[u]]);
        assert chosen[u] == p;
      }
      DistinctSubsetLength(all, chosen);
    }
  }

  /** In a cloud without duplicate points, sampling at most N centroids never picks
      a point twice. */
  lemma FpsDistinct(x: Cloud, start: nat, cents: seq<nat>)
    requires Dims(x, 3) && DistinctPoints(x) && FpsRun(x, start, cents) && |cents| <= |x|
    ensures Distinct(cents)
  {
    forall s, t | 0 <= s < t < |cents|
      ensures cents[s] != cents[t]
    {
      assert cents[..t][s] == cents[s];
      ZeroAtChosen(x, cents[..t], s);
      ZeroMaxMeansAllChosen(x, cents[..t], cents[t]);
    }
  }

  /** What the loop keeps for one cloud: the centroids so far form a valid run,
      `distance` holds their distances, and `farthest` is the start point before the
      first round and a farthest point afterwards. */
  predicate RoundState(x: Cloud, start: nat, chosen: seq<nat>, distance: seq<int>, farthest: nat)
    requires Dims(x, 3)
  {
    && FpsRun(x, start, chosen)
    && distance == Distances(x, chosen)
    && farthest < |x|
    && (|chosen| == 0 ==> farthest == start)
    && (|chosen| > 0 ==> IsArgMax(distance, farthest))
  }

  /** Before the first round nothing is chosen and every distance is the sentinel. */
  lemma RoundStateInitial(x: Cloud, start: nat)
    requires Dims(x, 3) && start < |x|
    ensures RoundState(x, start, [], seq(|x|, j => Far), start)
  {
    assert Distances(x, []) == seq(|x|, j => Far);
  }

  /** One round of the loop: record the farthest point, lower the distances, and
      pick the new farthest point. */
  lemma RoundStep(x: Cloud, start: nat, chosen: seq<nat>, distance: seq<int>, farthest: nat)
    requires Dims(x, 3) && RoundState(x, start, chosen, distance, farthest)
    ensures var lowered := Lowered(distance, DistancesFrom(x[farthest], x));
      RoundState(x, start, chosen + [farthest], lowered, ArgMax(lowered))
  {
    FpsStep(x, start, chosen, farthest);
    LoweredDistances(x, chosen, farthest);
  }

  /** The first `len` centroids recorded for cloud b. */
  function Column(centroids: array2<nat>, b: nat, len: nat): (r: seq<nat>)
    reads centroids
    requires b < centroids.Length0 && len <= centroids.Length1
    ensures |r| == len && forall t :: 0 <= t < len ==> r[t] == centroids[b, t]
  {
    seq(len, t reads centroids requires 0 <= t < len => centroids[b, t])
  }

  /** `torch.sum((xyz - centroid) ** 2, -1)` for the whole batch. */
  function BatchDistTo(xyz: Batch, n: nat, farthest: seq<nat>): (r: seq<seq<int>>)
    requires BatchShape(xyz, n, 3) && |farthest| == |xyz| && InRange(farthest, n)
    ensures |r| == |xyz| && forall b :: 0 <= b < |xyz| ==> r[b] == DistancesFrom(xyz[b][farthest[b]], xyz[b])
  {
    seq(|xyz|, b requires 0 <= b < |xyz| => DistancesFrom(xyz[b][farthest[b]], xyz[b]))
  }

  /** `torch.min(distance, dist)` for the whole batch. */
  function BatchLowered(distance: seq<seq<int>>, dist: seq<seq<int>>): (r: seq<seq<int>>)
    requires |distance| == |dist| && forall b :: 0 <= b < |dist| ==> |distance[b]| == |dist[b]|
    ensures |r| == |distance| && forall b :: 0 <= b < |dist| ==> r[b] == Lowered(distance[b], dist[b])
  {
    seq(|dist|, b requires 0 <= b < |dist| => Lowered(distance[b], dist[b]))
  }

  /** `torch.max(distance, -1)[1]` for the whole batch. */
  function BatchArgMax(distance: seq<seq<int>>): (r: seq<nat>)
    requires forall b :: 0 <= b < |distance| ==> |distance[b]| > 0
    ensures |r| == |distance| && forall b :: 0 <= b < |distance| ==> r[b] == ArgMax(distance[b])
  {
    seq(|distance|, b requires 0 <= b < |distance| => ArgMax(distance[b]))
  }

  /** The loop state of every cloud of the batch. */
  predicate BatchState(xyz: Batch, n: nat, start: seq<nat>, chosen: seq<seq<nat>>, distance: seq<seq<int>>, farthest: seq<nat>)
    requires BatchShape(xyz, n, 3)
  {
    && |start| == |chosen| == |distance| == |farthest| == |xyz|
    && forall b :: 0 <= b < |xyz| ==> RoundState(xyz[b], start[b], chosen[b], distance[b], farthest[b])
  }

  /** Every column gains its cloud's current farthest point. */
  function Extend(chosen: seq<seq<nat>>, farthest: seq<nat>): (r: seq<seq<nat>>)
    requires |chosen| == |farthest|
    ensures |r| == |chosen| && forall b :: 0 <= b < |chosen| ==> r[b] == chosen[b] + [farthest[b]]
  {
    seq(|chosen|, b requires 0 <= b < |chosen| => chosen[b] + [farthest[b]])
  }

  lemma BatchInitial(xyz: Batch, n: nat, start: seq<nat>)
    requires BatchShape(xyz, n, 3) && |start| == |xyz| && InRange(start, n)
    ensures BatchState(xyz, n, start, seq(|xyz|, b => []), seq(|xyz|, b => seq(n, j => Far)), start)
  {
    forall b | 0 <= b < |xyz|
      ensures RoundState(xyz[b], start[b], [], seq(n, j => Far), start[b])
    {
      RoundStateInitial(xyz[b], start[b]);
    }
  }

  /** One pass of the loop body over the whole batch keeps the loop state. */
  lemma BatchStep(xyz: Batch, n: nat, start: seq<nat>, chosen: seq<seq<nat>>, distance: seq<seq<int>>, farthest: seq<nat>)
    requires BatchShape(xyz, n, 3) && BatchState(xyz, n, start, chosen, distance, farthest)
    ensures InRange(farthest, n)
    ensures var lowered := BatchLowered(distance, BatchDistTo(xyz, n, farthest));
      && (forall b :: 0 <= b < |lowered| ==> |lowered[b]| > 0)
      && BatchState(xyz, n, start, Extend(chosen, farthest), lowered, BatchArgMax(lowered))
  {
    forall b | 0 <= b < |xyz|
      ensures var lowered := Lowered(distance[b], DistancesFrom(xyz[b][farthest[b]], xyz[b]));
        RoundState(xyz[b], start[b], chosen[b] + [farthest[b]], lowered, ArgMax(lowered))
    {
      RoundStep(xyz[b], start[b], chosen[b], distance[b], farthest[b]);
    }
  }

  /** `farthest_point_sample(xyz, npoint)` with the start points `start`. */
  method FarthestPointSample(xyz: Batch, n: nat, npoint: nat, start: seq<nat>)
    returns (centroids: array2<nat>)
    requires BatchShape(xyz, n, 3) && |start| == |xyz| && InRange(start, n)
    ensures fresh(centroids)
    ensures centroids.Length0 == |xyz| && centroids.Length1 == npoint
    ensures forall b :: 0 <= b < |xyz| ==> FpsRun(xyz[b], start[b], Column(centroids, b, npoint))
  {
    centroids := new nat[|xyz|, npoint];
    var distance := seq(|xyz|, b => seq(n, j => Far));
    var farthest: seq<nat> := start;
    ghost var chosen: seq<seq<nat>> := seq(|xyz|, b => []);
    BatchInitial(xyz, n, start);
    var i := 0;
    while i < npoint
      invariant 0 <= i <= npoint
      invariant BatchState(xyz, n, start, chosen, distance, farthest)
      invariant forall b :: 0 <= b < |xyz| ==> |chosen[b]| == i
      invariant forall b, t :: 0 <= b < |xyz| && 0 <= t < i ==> centroids[b, t] == chosen[b][t]
    {
      BatchStep(xyz, n, start, chosen, distance, farthest);
      forall b | 0 <= b < |xyz| {
        centroids[b, i] := farthest[b];
      }
      chosen := Extend(chosen, farthest);
      var dist := BatchDistTo(xyz, n, farthest);
      distance := BatchLowered(distance, dist);
      farthest := BatchArgMax(distance);
      i := i + 1;
    }
    forall b | 0 <= b < |xyz|
      ensures FpsRun(xyz[b], start[b], Column(centroids, b, npoint))
    {
      assert Column(centroids, b, npoint) == chosen[b];
    }
  }
}
