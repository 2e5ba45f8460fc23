/** `geometric_point_descriptor`: the 8-channel input of the first stage.

    Each 3-D point takes its neighbours at positions 1 and 2 of the nearest-first
    list (position 0 is, for a cloud without duplicates, the point itself), forms
    the two edges from the point to them, their cross product as a normal, and the
    edges' lengths. The channels are xyz, normal, |edge1|, |edge2|. */
module Descriptor {
  import opened Tensor
  import opened Distance
  import opened Nearest
  import opened Batching
  import opened GraphFeature

  /** `torch.cross(a, b, dim=1)` for 3-vectors. */
  function Cross(a: Point, b: Point): (r: Point)
    requires |a| == 3 && |b| == 3
    ensures |r| == 3
  {
    [a[1] * b[2] - a[2] * b[1], a[2] * b[0] - a[0] * b[2], a[0] * b[1] - a[1] * b[0]]
  }

  lemma Dot3(u: Point, v: Point)
    requires |u| == 3 && |v| == 3
    ensures Dot(u, v) == u[0] * v[0] + u[1] * v[1] + u[2] * v[2]
  {
    var u1, v1 := u[1..], v[1..];
    var u2, v2 := u1[1..], v1[1..];
    assert Dot(u2[1..], v2[1..]) == 0;
    assert Dot(u2, v2) == u[2] * v[2];
    assert Dot(u1, v1) == u[1] * v[1] + u[2] * v[2];
  }

  /** The triple product (a x b) . c vanishes when c is a or b; x holds a x b. */
  lemma TripleProductZero(x0: int, x1: int, x2: int, a0: int, a1: int, a2: int, b0: int, b1: int, b2: int)
    requires x0 == a1 * b2 - a2 * b1 && x1 == a2 * b0 - a0 * b2 && x2 == a0 * b1 - a1 * b0
    ensures x0 * a0 + x1 * a1 + x2 * a2 == 0
    ensures x0 * b0 + x1 * b1 + x2 * b2 == 0
  {
  }

  /** The normal is orthogonal to both edges it is built from. */
  lemma CrossOrthogonal(a: Point, b: Point)
    requires |a| == 3 && |b| == 3
    ensures Dot(Cross(a, b), a) == 0 && Dot(Cross(a, b), b) == 0
  {
    var x := Cross(a, b);
    Dot3(x, a);
    Dot3(x, b);
    TripleProductZero(x[0], x[1], x[2], a[0], a[1], a[2], b[0], b[1], b[2]);
  }

  /** One output point: `cat((org_x, normals, dist1, dist2))` from the centre and the
      two gathered neighbours. The lengths are kept squared. */
  function PointDescriptor(centre: Point, first: Point, second: Point): (r: Point)
    requires |centre| == 3 && |first| == 3 && |second| == 3
    ensures |r| == 8
    ensures r[..3] == centre
    ensures r[3..6] == Cross(Sub(first, centre), Sub(second, centre))
    ensures r[6] == SqDist(first, centre) && r[7] == SqDist(second, centre)
  {
    var edge1 := Sub(first, centre);
    var edge2 := Sub(second, centre);
    Expansion(first, centre);
    Expansion(second, centre);
    SqNormOfSub(first, centre);
    SqNormOfSub(second, centre);
    centre + Cross(edge1, edge2) + [SqNorm(edge1), SqNorm(edge2)]
  }

  /** ||a - b||^2 computed on the difference vector equals SqDist(a, b). */
  lemma {:induction false} SqNormOfSub(a: Point, b: Point)
    requires |a| == |b|
    ensures SqNorm(Sub(a, b)) == SqDist(a, b)
    decreases |a|
  {
    if |a| > 0 {
      SqNormOfSub(a[1..], b[1..]);
      assert Sub(a, b)[1..] == Sub(a[1..], b[1..]);
    }
  }

  /** The descriptor of every point of one cloud from its gathered neighbours. */
  function CloudDescriptor(x: Cloud, gathered: seq<seq<Point>>): (r: Cloud)
    requires Dims(x, 3) && |gathered| == |x|
    requires forall i :: 0 <= i < |x| ==> |gathered[i]| >= 3
    requires forall i, j :: 0 <= i < |x| && 0 <= j < |gathered[i]| ==> |gathered[i][j]| == 3
    ensures |r| == |x| && Dims(r, 8)
    ensures forall i :: 0 <= i < |x| ==> r[i] == PointDescriptor(x[i], gathered[i][1], gathered[i][2])
  {
    seq(|x|, i requires 0 <= i < |x| => PointDescriptor(x[i], gathered[i][1], gathered[i][2]))
  }

  /** `geometric_point_descriptor(x, k, idx)` over a batch of 3-D clouds. */
  function GeometricDescriptor(xs: Batch, n: nat, k: nat, idx: Option<seq<seq<seq<nat>>>>): (r: seq<Cloud>)
    requires BatchShape(xs, n, 3) && 3 <= k && (idx.None? ==> k <= n)
    requires idx.Some? ==> Shaped(idx.value, |xs|, n, k) && WithinCloud(idx.value, n)
    ensures |r| == |xs| && BatchShape(r, n, 8)
    ensures forall b, i :: 0 <= b < |xs| && 0 <= i < n ==>
      var id := Neighbours(xs, n, 3, k, idx)[b][i];
      id[1] < n && id[2] < n &&
      r[b][i] == PointDescriptor(xs[b][i], xs[b][id[1]], xs[b][id[2]])
  {
    Descriptors(xs, n, Neighbours(xs, n, 3, k, idx))
  }

  /** The descriptors for given in-cloud neighbour indices (at least three per point),
      gathered through the flattened (B*N, C) table. */
  function Descriptors(xs: Batch, n: nat, id: seq<seq<seq<nat>>>): (r: seq<Cloud>)
    requires BatchShape(xs, n, 3) && |id| == |xs| && WithinCloud(id, n)
    requires forall b :: 0 <= b < |id| ==> |id[b]| == n && forall i :: 0 <= i < n ==> |id[b][i]| >= 3
    ensures |r| == |xs| && BatchShape(r, n, 8)
    ensures forall b, i :: 0 <= b < |xs| && 0 <= i < n ==>
      r[b][i] == PointDescriptor(xs[b][i], xs[b][id[b][i][1]], xs[b][id[b][i][2]])
  {
    WithinCloudFits(id, |xs|, n);
    var neighbours := GatherNeighbours(xs, n, id);
    seq(|xs|, b requires 0 <= b < |xs| => CloudDescriptor(xs[b], neighbours[b]))
  }

  /** What the descriptor promises for knn-chosen neighbours: exactly 8 channels,
      xyz first, a normal orthogonal to both edges, and the first edge no longer
      than the second. */
  lemma DescriptorProperties(xs: Batch, n: nat, k: nat, b: nat, i: nat)
    requires BatchShape(xs, n, 3) && 3 <= k <= n && b < |xs| && i < n
    ensures var p := GeometricDescriptor(xs, n, k, None)[b][i];
      var id := Knn(xs[b], 3, k)[i];
      var edge1 := Sub(xs[b][id[1]], xs[b][i]);
      var edge2 := Sub(xs[b][id[2]], xs[b][i]);
      && |p| == 8
      && p[..3] == xs[b][i]
      && Dot(p[3..6], edge1) == 0 && Dot(p[3..6], edge2) == 0
      && p[6] <= p[7]
  {
    var id := Knn(xs[b], 3, k)[i];
    KnnNearestFirst(xs[b], 3, k, i);
    CrossOrthogonal(Sub(xs[b][id[1]], xs[b][i]), Sub(xs[b][id[2]], xs[b][i]));
    SqDistSymmetric(xs[b][id[1]], xs[b][i]);
    SqDistSymmetric(xs[b][id[2]], xs[b][i]);
  }

  /** For a cloud without duplicate points, positions 1 and 2 are the two nearest
      OTHER points: neither is the point itself, the first edge has positive length,
      and no third point is closer than the second. */
  lemma DescriptorSkipsSelf(xs: Batch, n: nat, k: nat, b: nat, i: nat)
    requires BatchShape(xs, n, 3) && 3 <= k <= n && b < |xs| && i < n
    requires DistinctPoints(xs[b])
    ensures var p := GeometricDescriptor(xs, n, k, None)[b][i];
      var id := Knn(xs[b], 3, k)[i];
      && id[1] != i && id[2] != i && id[1] != id[2]
      && 0 < p[6] <= p[7]
      && forall j :: 0 <= j < n && j != i && j != id[1] && j != id[2] ==>
           p[7] <= SqDist(xs[b][j], xs[b][i])
  {
    var x := xs[b];
    var id := Knn(x, 3, k)[i];
    KnnSelfFirst(x, 3, k, i);
    DescriptorProperties(xs, n, k, b, i);
    FirstEdgePositive(x, k, i);
    SecondNearestOther(x, k, i);
  }

  lemma FirstEdgePositive(x: Cloud, k: nat, i: nat)
    requires Dims(x, 3) && 3 <= k <= |x| && i < |x| && DistinctPoints(x)
    ensures SqDist(x[Knn(x, 3, k)[i][1]], x[i]) > 0
  {
    var id := Knn(x, 3, k)[i];
    KnnSelfFirst(x, 3, k, i);
    KnnNearestFirst(x, 3, k, i);
    SqDistZero(x[id[1]], x[i]);
    SqDistNonNegative(x[id[1]], x[i]);
  }

  lemma SecondNearestOther(x: Cloud, k: nat, i: nat)
    requires Dims(x, 3) && 3 <= k <= |x| && i < |x|
    ensures var id := Knn(x, 3, k)[i];
      forall j :: 0 <= j < |x| && j != id[0] && j != id[1] && j != id[2] ==>
        SqDist(x[id[2]], x[i]) <= SqDist(x[j], x[i])
  {
    var id := Knn(x, 3, k)[i];
    var d := DistancesFrom(x[i], x);
    KnnSorted(x, 3, k, i);
    forall j | 0 <= j < |x| && j != id[0] && j != id[1] && j != id[2]
      ensures SqDist(x[id[2]], x[i]) <= SqDist(x[j], x[i])
    {
      BeyondSecond(d, k, id, j);
    }
  }

  /** In a nearest-first nearest set, the entry at position 2 is no farther than any
      point outside positions 0, 1 and 2. */
  lemma BeyondSecond(d: seq<int>, k: nat, r: seq<nat>, j: nat)
    requires IsNearestSet(d, k, r) && 3 <= k && j < |d| && j != r[0] && j != r[1] && j != r[2]
    requires forall p, q :: 0 <= p < q < k ==> d[r[p]] <= d[r[q]]
    ensures d[r[2]] <= d[j]
  {
    if j in r {
      var t :| 0 <= t < k && r[t] == j;
      assert 2 < t;
    }
  }

  /** The descriptor's 8 channels become the 16 edge channels that the first
      stage's grouped convolution (`deepconv(16, 64, 16)`) expects. */
  lemma DescriptorFeedsFirstStage(xs: Batch, n: nat, k: nat, k': nat, b: nat, i: nat, j: nat)
    requires BatchShape(xs, n, 3) && 3 <= k <= n && k' <= n && b < |xs| && i < n && j < k'
    ensures |GetGraphFeature(GeometricDescriptor(xs, n, k, None), n, 8, k', None)[b][i][j]| == 16
  {
  }
}
