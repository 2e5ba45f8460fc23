/** Edge features: `get_graph_feature` and the gather half of `transformer_neighbors`.

    For every point i of a cloud and each of its k neighbours j, the edge feature
    concatenates (neighbour - centre) with the centre itself, doubling the channel
    count from C to 2C. The result is laid out (B, N, k, 2C); the source's final
    `permute(0, 3, 1, 2)` only reorders those axes. */
module GraphFeature {
  import opened Tensor
  import opened Distance
  import opened Ranking
  import opened Nearest
  import opened Batching

  function Sub(a: Point, b: Point): (r: Point)
    requires |a| == |b|
    ensures |r| == |a| && forall ch :: 0 <= ch < |a| ==> r[ch] == a[ch] - b[ch]
  {
    seq(|a|, ch requires 0 <= ch < |a| => a[ch] - b[ch])
  }

  /** `torch.cat((feature - x, x), dim=3)` for one (centre, neighbour) pair. */
  function EdgeOf(neighbour: Point, centre: Point): (r: Point)
    requires |neighbour| == |centre|
    ensures |r| == 2 * |centre|
    ensures forall ch :: 0 <= ch < |centre| ==>
      r[ch] == neighbour[ch] - centre[ch] && r[|centre| + ch] == centre[ch]
  {
    Sub(neighbour, centre) + centre
  }

  /** Neighbour indices, or the per-edge values gathered with them, shaped (B, N, k). */
  predicate Shaped<T>(e: seq<seq<seq<T>>>, bs: nat, n: nat, k: nat) {
    && |e| == bs
    && forall b :: 0 <= b < bs ==>
      |e[b]| == n && forall i :: 0 <= i < n ==> |e[b][i]| == k
  }

  /** `idx` if the caller supplies it, otherwise `knn(x, k)` cloud by cloud. */
  function Neighbours(xs: Batch, n: nat, c: nat, k: nat, idx: Option<seq<seq<seq<nat>>>>): (r: seq<seq<seq<nat>>>)
    requires BatchShape(xs, n, c) && (idx.None? ==> k <= n)
    requires idx.Some? ==> Shaped(idx.value, |xs|, n, k) && WithinCloud(idx.value, n)
    ensures Shaped(r, |xs|, n, k) && WithinCloud(r, n)
    ensures idx.Some? ==> r == idx.value
    ensures idx.None? ==> forall b :: 0 <= b < |xs| ==> r[b] == Knn(xs[b], c, k)
  {
    match idx
    case Some(given) => given
    case None =>
      var r := seq(|xs|, b requires 0 <= b < |xs| => Knn(xs[b], c, k));
      assert forall b, i :: 0 <= b < |xs| && 0 <= i < n ==>
        IsTopK(PairwiseDistance(xs[b], c)[i], k, r[b][i]);
      r
  }

  /** Edges of one cloud from its gathered neighbours: `cat((feature - x, x))` with the
      centre repeated k times. */
  function CloudEdges(x: Cloud, c: nat, gathered: seq<seq<Point>>): (r: seq<seq<Point>>)
    requires Dims(x, c) && |gathered| == |x|
    requires forall i, j :: 0 <= i < |x| && 0 <= j < |gathered[i]| ==> |gathered[i][j]| == c
    ensures |r| == |x|
    ensures forall i :: 0 <= i < |x| ==> |r[i]| == |gathered[i]|
    ensures forall i, j :: 0 <= i < |x| && 0 <= j < |gathered[i]| ==> r[i][j] == EdgeOf(gathered[i][j], x[i])
  {
    seq(|x|, i requires 0 <= i < |x| =>
      seq(|gathered[i]|, j requires 0 <= j < |gathered[i]| => EdgeOf(gathered[i][j], x[i])))
  }

  /** `get_graph_feature(x, k, idx)`: entry (b, i, j) is the edge from point i of cloud b
      to its j-th neighbour, gathered through the flattened (B*N, C) table. */
  function GetGraphFeature(xs: Batch, n: nat, c: nat, k: nat, idx: Option<seq<seq<seq<nat>>>>): (r: seq<seq<seq<Point>>>)
    requires BatchShape(xs, n, c) && (idx.None? ==> k <= n)
    requires idx.Some? ==> Shaped(idx.value, |xs|, n, k) && WithinCloud(idx.value, n)
    ensures Shaped(r, |xs|, n, k)
    ensures var id := Neighbours(xs, n, c, k, idx);
      forall b, i, j :: 0 <= b < |xs| && 0 <= i < n && 0 <= j < k ==>
        id[b][i][j] < n && r[b][i][j] == EdgeOf(xs[b][id[b][i][j]], xs[b][i])
  {
    EdgeFeatures(xs, n, c, Neighbours(xs, n, c, k, idx))
  }

  /** The edge features for given in-cloud neighbour indices, gathered through the
      flattened (B*N, C) table. */
  function EdgeFeatures(xs: Batch, n: nat, c: nat, id: seq<seq<seq<nat>>>): (r: seq<seq<seq<Point>>>)
    requires BatchShape(xs, n, c) && |id| == |xs| && WithinCloud(id, n)
    requires forall b :: 0 <= b < |id| ==> |id[b]| == n
    ensures |r| == |xs|
    ensures forall b :: 0 <= b < |id| ==> |r[b]| == n
    ensures forall b, i :: 0 <= b < |id| && 0 <= i < n ==> |r[b][i]| == |id[b][i]|
    ensures forall b, i, j :: 0 <= b < |id| && 0 <= i < n && 0 <= j < |id[b][i]| ==>
      r[b][i][j] == EdgeOf(xs[b][id[b][i][j]], xs[b][i])
  {
    WithinCloudFits(id, |xs|, n);
    var gathered := GatherNeighbours(xs, n, id);
    seq(|xs|, b requires 0 <= b < |xs| => CloudEdges(xs[b], c, gathered[b]))
  }

  /** The channel layout of an edge feature: 2C channels; the first C are
      neighbour - centre, the last C repeat the centre, identically for all k
      neighbours. */
  lemma GraphFeatureLayout(xs: Batch, n: nat, c: nat, k: nat, idx: Option<seq<seq<seq<nat>>>>,
                           b: nat, i: nat, j: nat, j': nat, ch: nat)
    requires BatchShape(xs, n, c) && (idx.None? ==> k <= n)
    requires idx.Some? ==> Shaped(idx.value, |xs|, n, k) && WithinCloud(idx.value, n)
    requires b < |xs| && i < n && j < k && j' < k && ch < c
    ensures var e := GetGraphFeature(xs, n, c, k, idx)[b][i][j];
      var nb := Neighbours(xs, n, c, k, idx)[b][i][j];
      && |e| == 2 * c
      && e[ch] == xs[b][nb][ch] - xs[b][i][ch]
      && e[c + ch] == xs[b][i][ch]
      && e[c + ch] == GetGraphFeature(xs, n, c, k, idx)[b][i][j'][c + ch]
  {
  }

  /** With no duplicate points and knn-chosen neighbours, the first edge of every
      point is the zero vector: each point is its own nearest neighbour. */
  lemma GraphFeatureSelfEdge(xs: Batch, n: nat, c: nat, k: nat, b: nat, i: nat, ch: nat)
    requires BatchShape(xs, n, c) && 0 < k <= n
    requires b < |xs| && i < n && ch < c && DistinctPoints(xs[b])
    ensures GetGraphFeature(xs, n, c, k, None)[b][i][0][ch] == 0
  {
    KnnSelfFirst(xs[b], c, k, i);
  }

  /** `transformer_neighbors(xyz, feature, k, idx)`: neighbours chosen in xyz space;
      returns the position vectors CENTRE - NEIGHBOUR (the opposite sign of
      `get_graph_feature`) and the neighbours' features, both gathered through the
      flattened table with the same shifted indices. */
  function TransformerNeighbors(xyz: Batch, feature: Batch, n: nat, c: nat, cf: nat, k: nat,
                                idx: Option<seq<seq<seq<nat>>>>): (r: (seq<seq<seq<Point>>>, seq<seq<seq<Point>>>))
    requires BatchShape(xyz, n, c) && BatchShape(feature, n, cf) && |feature| == |xyz| && (idx.None? ==> k <= n)
    requires idx.Some? ==> Shaped(idx.value, |xyz|, n, k) && WithinCloud(idx.value, n)
    ensures Shaped(r.0, |xyz|, n, k) && Shaped(r.1, |xyz|, n, k)
    ensures var id := Neighbours(xyz, n, c, k, idx);
      forall b, i, j :: 0 <= b < |xyz| && 0 <= i < n && 0 <= j < k ==>
        && id[b][i][j] < n
        && r.0[b][i][j] == Sub(xyz[b][i], xyz[b][id[b][i][j]])
        && r.1[b][i][j] == feature[b][id[b][i][j]]
  {
    var id := Neighbours(xyz, n, c, k, idx);
    (PositionVectors(xyz, n, c, id), NeighbourFeatures(feature, n, cf, id))
  }

  /** `(x - neighbor_x)` over the batch, neighbours gathered through the table. */
  function PositionVectors(xyz: Batch, n: nat, c: nat, id: seq<seq<seq<nat>>>): (r: seq<seq<seq<Point>>>)
    requires BatchShape(xyz, n, c) && |id| == |xyz| && WithinCloud(id, n)
    requires forall b :: 0 <= b < |id| ==> |id[b]| == n
    ensures |r| == |xyz|
    ensures forall b :: 0 <= b < |id| ==> |r[b]| == n
    ensures forall b, i :: 0 <= b < |id| && 0 <= i < n ==> |r[b][i]| == |id[b][i]|
    ensures forall b, i, j :: 0 <= b < |id| && 0 <= i < n && 0 <= j < |id[b][i]| ==>
      r[b][i][j] == Sub(xyz[b][i], xyz[b][id[b][i][j]])
  {
    WithinCloudFits(id, |xyz|, n);
    var neighbourX := GatherNeighbours(xyz, n, id);
    seq(|xyz|, b requires 0 <= b < |xyz| => CloudPositions(xyz[b], c, neighbourX[b]))
  }

  /** `neighbor_feat`: every neighbour's feature vector, gathered through the table. */
  function NeighbourFeatures(feature: Batch, n: nat, cf: nat, id: seq<seq<seq<nat>>>): (r: seq<seq<seq<Point>>>)
    requires BatchShape(feature, n, cf) && |id| == |feature| && WithinCloud(id, n)
    requires forall b :: 0 <= b < |id| ==> |id[b]| == n
    ensures |r| == |feature|
    ensures forall b :: 0 <= b < |id| ==> |r[b]| == n
    ensures forall b, i :: 0 <= b < |id| && 0 <= i < n ==> |r[b][i]| == |id[b][i]|
    ensures forall b, i, j :: 0 <= b < |id| && 0 <= i < n && 0 <= j < |id[b][i]| ==>
      r[b][i][j] == feature[b][id[b][i][j]]
  {
    WithinCloudFits(id, |feature|, n);
    GatherNeighbours(feature, n, id)
  }

  /** `x - neighbor_x` for one cloud, the centre repeated k times. */
  function CloudPositions(x: Cloud, c: nat, gathered: seq<seq<Point>>): (r: seq<seq<Point>>)
    requires Dims(x, c) && |gathered| == |x|
    requires forall i, j :: 0 <= i < |x| && 0 <= j < |gathered[i]| ==> |gathered[i][j]| == c
    ensures |r| == |x|
    ensures forall i :: 0 <= i < |x| ==> |r[i]| == |gathered[i]|
    ensures forall i, j :: 0 <= i < |x| && 0 <= j < |gathered[i]| ==> r[i][j] == Sub(x[i], gathered[i][j])
  {
    seq(|x|, i requires 0 <= i < |x| =>
      seq(|gathered[i]|, j requires 0 <= j < |gathered[i]| => Sub(x[i], gathered[i][j])))
  }

  /** The position vectors of `transformer_neighbors` are the negated first half of
      `get_graph_feature` on the same coordinates and indices. */
  lemma TransformerOppositeSign(xyz: Batch, feature: Batch, n: nat, c: nat, cf: nat, k: nat,
                                idx: Option<seq<seq<seq<nat>>>>, b: nat, i: nat, j: nat, ch: nat)
    requires BatchShape(xyz, n, c) && BatchShape(feature, n, cf) && |feature| == |xyz| && (idx.None? ==> k <= n)
    requires idx.Some? ==> Shaped(idx.value, |xyz|, n, k) && WithinCloud(idx.value, n)
    requires b < |xyz| && i < n && j < k && ch < c
    ensures TransformerNeighbors(xyz, feature, n, c, cf, k, idx).0[b][i][j][ch]
         == -GetGraphFeature(xyz, n, c, k, idx)[b][i][j][ch]
  {
  }
}
