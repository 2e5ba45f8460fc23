# CWNet neighbour layer in Dafny

CWNet classifies point clouds. Under its learned layers sits a discrete
neighbour-selection and indexing layer. That layer is what this project models.
It builds squared-distance matrices, picks the k nearest neighbours of every
point, gathers them through a flattened `(B*N, C)` view of the batch, and forms
edge features and an 8-channel geometric descriptor. It also includes the
adaptive dilated neighbour selection of `knn_metric` and farthest-point
sampling. The DFA fusion of two feature maps is a small extra.

Conventions:

- A cloud is point-major: N points of C integer coordinates (`seq<seq<int>>`).
  A batch is a sequence of clouds. The source uses two layouts:
  - `knn`, `pw_dist` and `knn_metric` compute their distance matrices directly
    on the channel-major `(C, N)` tensor, without transposing it;
  - `get_graph_feature`, `transformer_neighbors`, `geometric_point_descriptor`
    and `get_adptive_dilated_graph_feature` transpose to `(N, C)` before
    gathering;
  - `square_distance`, `index_points`, `knn_point` and `farthest_point_sample`
    receive `(N, C)` tensors as they are.

  Entry (ch, n) of a `(C, N)` tensor is entry (n, ch) of its transpose. So
  both layouts describe the same points, and one point-major model serves both.
- Coordinates are integers, so every distance identity is exact.
- Learned quantities are parameters. These are the sigmoid score of
  `knn_metric` (a real in [0, 1]) and the DFA gate.
- `torch.topk` and `torch.max` leave the order of ties open. Every lemma's
  conclusion follows from a relation that any tie order satisfies:
  - `IsTopK` and `IsNearestSet` for top-k;
  - `IsArgMax` for the maximum.
  The concrete choices (an insertion sort, the first maximum) are proved to
  satisfy these relations. The contracts that name `Knn`, `Candidates` or
  `ArgMax` describe one of the orders the framework may return (see Left out).
- Modules:
  - `Tensor`: shapes and `Option`;
  - `Distance`: `knn`, `pw_dist`, `square_distance` matrices;
  - `Ranking`: `topk`;
  - `Nearest`: `knn`, `knn_point`;
  - `Batching`: flat indices, the `(B*N, C)` gather, `index_points`;
  - `GraphFeature`: `get_graph_feature`, `transformer_neighbors`;
  - `Dilation`: `knn_metric`, `get_adptive_dilated_graph_feature`;
  - `Descriptor`: `geometric_point_descriptor`;
  - `Sampling`: `farthest_point_sample`;
  - `Fusion`: DFA.
- `farthest_point_sample` is the one imperative routine. It is a method:
  - `centroids` is an `array2` written column by column;
  - `distance` and `farthest` are reassigned in every round;
  - it is proved against the specification `FpsRun`.

## Model

| member | source | states |
|---|---|---|
| Distance.Expansion | model/CWNet_cls.py:236-240 | ‖a‖² + ‖b‖² − 2a·b equals the sum of squared coordinate differences, for every pair of vectors of equal length |
| Distance.PairwiseDistance | model/CWNet_cls.py:14-16 | the `knn` matrix is N × N, and entry (i, j) is the negated squared distance between points i and j |
| Distance.PwDist | model/CWNet_cls.py:163-168 | the `pw_dist` matrix is N × N, and entry (i, j) is the squared distance between points i and j |
| Distance.PwDistIsSquaredDistance | model/CWNet_cls.py:163-168 | `pw_dist` entry (i, j) is the squared distance: non-negative, symmetric, zero on the diagonal, and zero exactly when the two points coincide |
| Distance.SquareDistanceIsSqDist | model/CWNet_cls.py:247-252 | `square_distance` entry (n, m) is the squared distance from source point n to target point m, and is non-negative |
| Distance.SquareDistance | model/CWNet_cls.py:249-252 | the `square_distance` matrix is N × M, and entry (n, m) is the squared distance from source point n to target point m |
| Distance.SqDistZero | model/CWNet_cls.py:239 | the squared distance is 0 if and only if the two points are equal |
| Distance.SqDistSymmetric | model/CWNet_cls.py:239 | the squared distance does not depend on argument order |
| Ranking.TopK | model/CWNet_cls.py:18 | `topk(k)` returns k distinct in-range indices, best score first, and no index left out scores higher than one taken |
| Ranking.SortIndices | model/CWNet_cls.py:18 | the indices 0..n−1 each appear once, ordered by non-increasing score |
| Ranking.InsertDescending | model/CWNet_cls.py:18 | inserting an index into a list ordered by score keeps it ordered |
| Ranking.InsertDistinct | model/CWNet_cls.py:18 | inserting a new index into a duplicate-free list keeps it duplicate-free |
| Ranking.TopKScoresUnique | model/CWNet_cls.py:18 | any two valid `topk` answers carry the same scores position by position; only the tie order can differ |
| Nearest.Knn | model/CWNet_cls.py:13-19 | every row of `knn` is a valid top-k answer for that point's row of the negated-distance matrix |
| Nearest.KnnNearestFirst | model/CWNet_cls.py:13-19 | each row has exactly k distinct indices in [0, N), ordered nearest first, and no point left out is nearer than one taken |
| Nearest.KnnSelfFirst | model/CWNet_cls.py:13-19 | in a cloud without duplicate points, position 0 of row i is i itself and no later position is i |
| Nearest.KnnPoint | model/CWNet_cls.py:298-309 | for each query point, `knn_point` returns nsample distinct in-range indices of the smallest `square_distance` entries |
| Nearest.KnnPointNearest | model/CWNet_cls.py:298-309 | those indices are nearest to the query by true squared distance |
| Nearest.NearestSetUnique | model/CWNet_cls.py:308 | without tied distances, two valid nearest-k answers hold the same indices |
| Nearest.KnnPointSameSetAsKnn | model/CWNet_cls.py:298-309 | on a cloud queried against itself with no tied distances, `knn_point` selects the same neighbour set as `knn` |
| Batching.FlatIndex | model/CWNet_cls.py:106-110 | for i < N, the flat index `idx + idx_base` = b·N + i divides by N to give back cloud b with remainder i |
| Batching.FlatIndexDecodes | model/CWNet_cls.py:106-110 | for b < B and i < N the flat index b·N + i lies below B·N, and dividing by N gives back b with remainder i |
| Batching.FlattenBatchAt | model/CWNet_cls.py:114-115 | row b·N + i of the `(B*N, C)` view is point i of cloud b |
| Batching.FlattenBatch | model/CWNet_cls.py:114-115 | the `(B*N, C)` view has B·N rows, and row b·N + i is point i of cloud b |
| Batching.GatherNeighbours | model/CWNet_cls.py:106-116 | gathering through the flat view with in-cloud indices returns cloud b's own point idx, so no batch reads another |
| Batching.GatherPastCloudEnd | model/CWNet_cls.py:106-116 | the flat view does not check idx < N: an index equal to N in cloud b reads point 0 of cloud b + 1 |
| Batching.IndexPoints | model/CWNet_cls.py:255-271 | `index_points` returns point idx[b][s] of cloud b, the same row the flat view holds at b·N + idx[b][s] |
| GraphFeature.Neighbours | model/CWNet_cls.py:102-103 | the supplied indices are used unchanged, otherwise `knn` per cloud; either way they are (B, N, k) indices within the cloud |
| GraphFeature.GetGraphFeature | model/CWNet_cls.py:98-122 | entry (b, i, j) is the edge from point i of cloud b to its j-th neighbour in that same cloud |
| GraphFeature.EdgeFeatures | model/CWNet_cls.py:106-119 | for any in-cloud indices, each entry is (neighbour − centre, centre) of the gathered neighbour |
| GraphFeature.EdgeOf | model/CWNet_cls.py:119 | an edge has 2C channels: the first C are neighbour − centre, the last C the centre |
| GraphFeature.GraphFeatureLayout | model/CWNet_cls.py:117-119 | every edge has 2C channels, and the centre half is identical across all k neighbours of a point |
| GraphFeature.GraphFeatureSelfEdge | model/CWNet_cls.py:98-122 | with knn neighbours in a cloud without duplicates, the first edge's difference half is zero |
| GraphFeature.TransformerNeighbors | model/CWNet_cls.py:21-57 | position vectors are centre − neighbour and neighbour features are the gathered features, both through the same in-cloud indices |
| GraphFeature.PositionVectors | model/CWNet_cls.py:43-48 | for any in-cloud indices, entry (b, i, j) is point i minus its j-th gathered neighbour |
| GraphFeature.NeighbourFeatures | model/CWNet_cls.py:52-55 | for any in-cloud indices, entry (b, i, j) is the feature vector of the j-th neighbour in the same cloud |
| GraphFeature.TransformerOppositeSign | model/CWNet_cls.py:48 | the position vectors are the negated difference half of `get_graph_feature` on the same points and indices |
| Dilation.Metric | model/CWNet_cls.py:186 | the projection maps a score in [0, 1] into [0.5, 5.5] |
| Dilation.Level | model/CWNet_cls.py:189-195 | inside [0.5, 5.5] the five disjoint bands yield exactly one level m in 1..5 with m − 0.5 ≤ metric < m + 0.5 (closed at 5.5); outside it the level is 0 |
| Dilation.LevelOfScore | model/CWNet_cls.py:184-195 | a score in [0, 1] gives a level in 1..5, and a higher score never gives a lower level |
| Dilation.SelectPositions | model/CWNet_cls.py:197-202 | the selection positions `arange(k) * value` never pass the last one, m(k−1); for m ≥ 1 they strictly increase, so no candidate is picked twice; for m = 0 every position is 0 |
| Dilation.DilatedSelect | model/CWNet_cls.py:205 | the gather succeeds if and only if k = 0 or m(k−1) is below the candidate count, and then picks candidate j·m at position j |
| Dilation.Candidates | model/CWNet_cls.py:203 | the k·d candidates of point i are a valid `topk(k·d)` answer for row i of the negated-distance matrix: distinct, in range, nearest first, and none left out is nearer |
| Dilation.Levels | model/CWNet_cls.py:184-195 | the level of every point comes from its own score, and when every score is in [0, 1] every level is in 1..5 |
| Dilation.KnnMetric | model/CWNet_cls.py:171-206 | the call succeeds if and only if every point's dilated gather is in bounds, and row i is then point i's dilated selection from its k·d nearest-first candidates |
| Dilation.KnnMetricInBounds | model/CWNet_cls.py:197-205 | with d ≥ 5 and scores in [0, 1], every dilated gather is in bounds |
| Dilation.KnnMetricOverflow | model/CWNet_cls.py:197-205 | with d ≤ 4, k ≥ 5 and a score of 1, the level-5 gather runs past the k·d candidates |
| Dilation.KnnMetricRow | model/CWNet_cls.py:197-205 | a selected row has k in-range indices, starts at the nearest candidate, is nearest first, and is duplicate-free for levels ≥ 1 |
| Dilation.BatchKnnMetric | model/CWNet_cls.py:171-206 | the batch succeeds exactly when every cloud does; the result is then (B, N, k) in-cloud indices equal to each cloud's selection |
| Dilation.GetAdaptiveDilatedGraphFeature | model/CWNet_cls.py:210-230 | fails only when no indices are given and the dilated selection fails; otherwise builds the edge layout of `get_graph_feature` from the given or selected indices. k·d ≤ N is demanded only when the indices are selected, since given indices skip `knn_metric` |
| Dilation.GivenIndicesSkipMetric | model/CWNet_cls.py:214-215 | with indices given, the feature is built even when k·d exceeds N (N = 4, k = 2, d = 5) |
| Descriptor.CrossOrthogonal | model/CWNet_cls.py:154 | the cross product is orthogonal to both of its arguments |
| Descriptor.Cross | model/CWNet_cls.py:154 | the cross product of two 3-vectors is a 3-vector |
| Descriptor.PointDescriptor | model/CWNet_cls.py:152-158 | 8 channels: xyz, then edge1 × edge2, then the squared lengths of edge1 and edge2, edges taken from the centre to neighbours 1 and 2 |
| Descriptor.SqNormOfSub | model/CWNet_cls.py:155-156 | the squared norm of the edge vector is the squared distance between its endpoints |
| Descriptor.GeometricDescriptor | model/CWNet_cls.py:124-161 | every point gets the descriptor built from its neighbours at positions 1 and 2, taken from its own cloud |
| Descriptor.Descriptors | model/CWNet_cls.py:134-158 | for any in-cloud indices, the descriptor uses gathered neighbours 1 and 2 of the same cloud |
| Descriptor.DescriptorProperties | model/CWNet_cls.py:124-161 | with knn neighbours: 8 channels, xyz first, a normal orthogonal to both edges, first edge no longer than the second |
| Descriptor.DescriptorSkipsSelf | model/CWNet_cls.py:130-150 | in a cloud without duplicates, neighbours 1 and 2 are two distinct other points, the first edge has positive length, and no third point is nearer than neighbour 2 |
| Descriptor.DescriptorFeedsFirstStage | model/CWNet_cls.py:447-451 | the descriptor's edge features have 16 channels, the input width of `deepconv(16, 64, 16)` |
| Sampling.MinDist | model/CWNet_cls.py:284-292 | the distance entry of a point is at most 1e10 and at most its squared distance to every chosen centroid, and it equals 1e10 or one of those distances |
| Sampling.ArgMax | model/CWNet_cls.py:293 | returns an index of a largest entry (the first one) |
| Distance.DistancesFromZero | model/CWNet_cls.py:290-291 | every entry of the distance row `dist` from the centroid (`DistancesFrom`, shared with `knn` and `knn_point`) is non-negative, and it is 0 exactly where the point equals the centroid |
| Sampling.Lowered | model/CWNet_cls.py:292 | each entry of `torch.min(distance, dist)` is at most both inputs and equal to one of them |
| Sampling.FpsRun | model/CWNet_cls.py:286-293 | a column of centroids is a valid run: every entry is in range, the first is the start point, and each later one is a farthest point from those before it |
| Sampling.LoweredDistances | model/CWNet_cls.py:291-292 | one `torch.min` with the new centroid's squared distances turns the distances for the centroids so far into those for the centroids plus the new one |
| Sampling.FpsStep | model/CWNet_cls.py:289-293 | appending the current farthest point to a valid run of centroids gives a valid run |
| Sampling.RoundStep | model/CWNet_cls.py:289-293 | one round of the loop body keeps the loop state of a cloud |
| Sampling.MinDistNonNegative | model/CWNet_cls.py:291-292 | distance entries are never negative |
| Sampling.ZeroAtChosen | model/CWNet_cls.py:289-292 | a point already chosen as centroid has distance 0 |
| Sampling.DistancesShrink | model/CWNet_cls.py:292 | distances never increase as centroids are added |
| Sampling.ZeroMaxMeansAllChosen | model/CWNet_cls.py:292-293 | in a cloud without duplicates, if the largest distance is 0 then every point is already a centroid |
| Sampling.FpsDistinct | model/CWNet_cls.py:274-294 | in a cloud without duplicates, sampling at most N centroids never picks a point twice |
| Sampling.FarthestPointSample | model/CWNet_cls.py:274-294 | returns a B × npoint array whose row b starts at the start point and whose every later entry is a farthest point from the centroids before it |
| Fusion.Fuse | model/CWNet_cls.py:351 | `att * x0 + (1 - att) * x1` has the inputs' length, and each entry moves from x1 toward x0 by the fraction att of their difference |
| Fusion.Blend | model/CWNet_cls.py:351 | a weight in [0, 1] blends two values into the interval between them, strictly inside for a weight in (0, 1) and distinct values |
| Fusion.FuseBetween | model/CWNet_cls.py:346-351 | with a gate in [0, 1], every fused entry lies between the two input entries |
| Fusion.FuseAgreeing | model/CWNet_cls.py:351 | where both inputs agree, the fusion returns them unchanged whatever the gate |
| Fusion.FuseSelects | model/CWNet_cls.py:351 | a gate of all ones returns the first input, of all zeros the second |

## Left out

- Learned layers are not modelled: `Point_Transformer`, `deepconv`, `Trans2`, `CWNET`'s stages, pooling and classifier, the score network inside `knn_metric` (`conv_op1`, `conv_op11`; `conv_op2` is unused), and the DFA gate's `fc`/`fc1`/sigmoid. The score and the gate are parameters in [0, 1].
- Floating point is not modelled. Coordinates are integers, the score and gate are exact reals, and rounding in the distance expansion is not captured.
- Descriptor.PointDescriptor: channels 6 and 7 are the SQUARED edge lengths; the `torch.norm` square root is not modelled. Their order (first ≤ second) and positivity carry over because the square root is monotone.
- Descriptor.GeometricDescriptor: same squared-length simplification as PointDescriptor.
- Sampling.FarthestPointSample: the random start (`torch.randint`) is a parameter.
- Sampling.FarthestPointSample: centroids are naturals; the int64 tensor type is not modelled.
- Device and dtype plumbing (`torch.device`, `.type(torch.cuda.LongTensor)`) is not modelled, because it does not change any value.
- The axis-only reshapes (`transpose`, `permute`, `view` to the (B, N, k, C) shape, `contiguous`) are not modelled. Results are stated in the (B, N, k, C) layout they reorder.
- `idx.view(-1)` is not modelled as a separate step. The gather is stated per (b, i, j) through the flat table, which is the same thing.
- Nearest.Knn and Nearest.KnnPoint: stated per cloud; the batch dimension applies them cloud by cloud.
- Nearest.KnnPoint: `sorted=False` leaves the output order unspecified, so the contract states only the nearest set; this model happens to return it nearest first.
- Ranking.TopK: ties are broken by one fixed rule. Every lemma's conclusion follows from `IsTopK` alone, which any tie order satisfies. The contracts that name `Knn` or `Candidates` (`Neighbours`, `GetGraphFeature`, `TransformerNeighbors`, `GeometricDescriptor`, `KnnMetric`, `BatchKnnMetric`, `GetAdaptiveDilatedGraphFeature`) describe one of the tie orders the framework may return.
- Sampling.ArgMax: the first maximum is taken, but `FpsRun` and the method's contract accept any maximum.
- Batching.IndexPoints: only the two-dimensional `idx` (B, S) used with `farthest_point_sample` is modelled; higher-rank `idx` shapes are not.
- Ranking.TopK: `topk` with k > N raises an error in the framework; a precondition k ≤ N excludes that call instead of modelling the error.
- Nearest.Knn: `topk(k)` with k > N raises an error; a precondition k ≤ N excludes it.
- Nearest.KnnPoint: `topk(nsample)` with nsample > N raises an error; a precondition nsample ≤ N excludes it.
- Batching.IndexPoints: an index ≥ N raises an error in the framework and a negative index counts from the end of the cloud. Neither is modelled: a precondition requires every index to be in [0, N), and indices are naturals.
- GraphFeature.Neighbours: supplied indices must lie in [0, N) (`WithinCloud`). For a supplied index v of cloud b the source reads row b·N + v of the flattened table whenever −B·N ≤ b·N + v < B·N, counting negative rows from the end of the table. That row lies in another cloud for v ≥ N (see `GatherPastCloudEnd`) and for −b·N ≤ v < 0. A v below −b·N wraps to row b·N + v + B·N, which is point v + B·N of cloud b itself when v ∈ [−B·N, −(B−1)·N) and a point of another cloud otherwise. Any other index raises an error. The model does not follow these cases.
- GraphFeature.GetGraphFeature: same restriction on supplied indices as Neighbours.
- GraphFeature.TransformerNeighbors: same restriction on supplied indices as Neighbours.
- Descriptor.GeometricDescriptor: same restriction on supplied indices as Neighbours. It also requires k ≥ 3, since the source reads neighbours 1 and 2 and fails otherwise.
- Dilation.GetAdaptiveDilatedGraphFeature: same restriction on supplied indices as Neighbours.
- Dilation.KnnMetric: a gather past the candidate list, which raises an error in the framework, is modelled as `None`; `topk` with k·d > N, which also raises, is excluded by a precondition.
- `analysis.py` is not part of this model: it only reports flops and parameter counts through an external library.
- `CWNET.__init__` calls `super(GDANET, self)`. That is a NameError in construction code outside the modelled layer.
