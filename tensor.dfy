/** Shapes shared by the whole model.

    The network's tensors are laid out (B, C, N): B clouds, C channels, N points.
    `knn`, `pw_dist` and `knn_metric` compute their distance matrices directly on
    the (C, N) layout, `get_graph_feature`, `transformer_neighbors`,
    `geometric_point_descriptor` and `get_adptive_dilated_graph_feature` transpose
    to (N, C) before gathering, and `square_distance`, `index_points`, `knn_point`
    and `farthest_point_sample` are handed (N, C) tensors. Entry (ch, n) of a (C, N)
    tensor is entry (n, ch) of its transpose, so every layout is modelled point-major: a cloud is a sequence of N
    points, each a sequence of C integer coordinates. A batch is a sequence of B
    such clouds. */
module Tensor {

  type Point = seq<int>
  type Cloud = seq<Point>
  type Batch = seq<Cloud>

  datatype Option<T> = None | Some(value: T)

  /** Every point of the cloud has c channels. */
  predicate Dims(x: Cloud, c: nat) {
    forall i :: 0 <= i < |x| ==> |x[i]| == c
  }

  /** Every cloud of the batch has n points of c channels. */
  predicate BatchShape(xs: Batch, n: nat, c: nat) {
    forall b :: 0 <= b < |xs| ==> |xs[b]| == n && Dims(xs[b], c)
  }

  /** Every index of the row points into a cloud of n points. */
  predicate InRange(row: seq<nat>, n: nat) {
    forall t :: 0 <= t < |row| ==> row[t] < n
  }

  /** No index occurs twice. */
  predicate Distinct(row: seq<nat>) {
    forall s, t :: 0 <= s < t < |row| ==> row[s] != row[t]
  }

  /** No two points of the cloud coincide. */
  predicate DistinctPoints(x: Cloud) {
    forall i, j :: 0 <= i < j < |x| ==> x[i] != x[j]
  }

  /** The set of indices a row mentions. */
  function Elems(a: seq<nat>): set<nat> {
    set x | x in a
  }

  /** A duplicate-free sequence whose elements all occur in another is no longer. */
  lemma DistinctSubsetLength(a: seq<nat>, b: seq<nat>)
    requires Distinct(a)
    requires forall p :: 0 <= p < |a| ==> a[p] in b
    ensures |a| <= |b|
  {
    ElemsOfDistinct(a);
    ElemsBound(b);
    assert forall x :: x in Elems(a) ==> x in Elems(b);
    SubsetSize(Elems(a), Elems(b));
  }

  lemma {:induction false} SubsetSize(u: set<nat>, v: set<nat>)
    requires u <= v
    ensures |u| <= |v|
    decreases |u|
  {
    if u != {} {
      var x :| x in u;
      SubsetSize(u - {x}, v - {x});
    }
  }

  lemma {:induction false} ElemsOfDistinct(a: seq<nat>)
    requires Distinct(a)
    ensures |Elems(a)| == |a|
  {
    if |a| > 0 {
      ElemsOfDistinct(a[1..]);
      assert a[0] !in a[1..];
      assert Elems(a) == {a[0]} + Elems(a[1..]);
    }
  }

  lemma {:induction false} ElemsBound(b: seq<nat>)
    ensures |Elems(b)| <= |b|
  {
    if |b| > 0 {
      ElemsBound(b[1..]);
      assert Elems(b) == {b[0]} + Elems(b[1..]);
    }
  }
}
