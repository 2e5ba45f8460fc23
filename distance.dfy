/** Squared Euclidean distances between points (`knn`, `pw_dist`, `square_distance`).

    The source never subtracts points: it expands ||a - b||^2 into
    ||a||^2 + ||b||^2 - 2 a.b so that one matrix product gives every pair. The
    model builds the matrices from that expansion and proves them equal to the
    reference definition SqDist, the sum of squared coordinate differences. */
module Distance {
  import opened Tensor

  function Dot(a: Point, b: Point): int
    requires |a| == |b|
    decreases |a|
  {
    if |a| == 0 then 0 else a[0] * b[0] + Dot(a[1..], b[1..])
  }

  /** ||a||^2, one entry of `xx = sum(x ** 2)`. */
  function SqNorm(a: Point): int {
    Dot(a, a)
  }

  /** Reference definition: sum over i of (a[i] - b[i])^2. */
  function SqDist(a: Point, b: Point): int
    requires |a| == |b|
    decreases |a|
  {
    if |a| == 0 then 0 else (a[0] - b[0]) * (a[0] - b[0]) + SqDist(a[1..], b[1..])
  }

  /** The matrix `pairwise_distance = -xx - inner - xx^T` of `knn` and `knn_metric`,
      where `inner = -2 x^T x`: entry (i, j) is the NEGATED squared distance. */
  function PairwiseDistance(x: Cloud, c: nat): (r: seq<seq<int>>)
    requires Dims(x, c)
    ensures |r| == |x| && forall i :: 0 <= i < |x| ==> |r[i]| == |x|
    ensures forall i, j :: 0 <= i < |x| && 0 <= j < |x| ==> r[i][j] == -SqDist(x[i], x[j])
  {
    var r := seq(|x|, i requires 0 <= i < |x| =>
      seq(|x|, j requires 0 <= j < |x| =>
        -SqNorm(x[j]) - (-2 * Dot(x[i], x[j])) - SqNorm(x[i])));
    assert forall i, j :: 0 <= i < |x| && 0 <= j < |x| ==> r[i][j] == -SqDist(x[i], x[j]) by {
      forall i, j | 0 <= i < |x| && 0 <= j < |x|
        ensures r[i][j] == -SqDist(x[i], x[j])
      {
        Expansion(x[i], x[j]);
        DotSymmetric(x[i], x[j]);
      }
    }
    r
  }

  /** `pw_dist`: the negation of PairwiseDistance. */
  function PwDist(x: Cloud, c: nat): (r: seq<seq<int>>)
    requires Dims(x, c)
    ensures |r| == |x| && forall i :: 0 <= i < |x| ==> |r[i]| == |x|
    ensures forall i, j :: 0 <= i < |x| && 0 <= j < |x| ==> r[i][j] == SqDist(x[i], x[j])
  {
    var p := PairwiseDistance(x, c);
    seq(|x|, i requires 0 <= i < |x| => seq(|x|, j requires 0 <= j < |x| => -p[i][j]))
  }

  /** `square_distance(src, dst)`: start from -2 src.dst^T, then add ||src||^2 per row
      and ||dst||^2 per column. Entry (n, m) compares source point n with target m. */
  function SquareDistance(src: Cloud, dst: Cloud, c: nat): (r: seq<seq<int>>)
    requires Dims(src, c) && Dims(dst, c)
    ensures |r| == |src| && forall n :: 0 <= n < |src| ==> |r[n]| == |dst|
    ensures forall n, m :: 0 <= n < |src| && 0 <= m < |dst| ==> r[n][m] == SqDist(src[n], dst[m])
  {
    var r := seq(|src|, n requires 0 <= n < |src| =>
      seq(|dst|, m requires 0 <= m < |dst| =>
        -2 * Dot(src[n], dst[m]) + SqNorm(src[n]) + SqNorm(dst[m])));
    assert forall n, m :: 0 <= n < |src| && 0 <= m < |dst| ==> r[n][m] == SqDist(src[n], dst[m]) by {
      forall n, m | 0 <= n < |src| && 0 <= m < |dst|
        ensures r[n][m] == SqDist(src[n], dst[m])
      {
        Expansion(src[n], dst[m]);
      }
    }
    r
  }

  /** The expansion used by every distance matrix above is exact. */
  lemma {:induction false} Expansion(a: Point, b: Point)
    requires |a| == |b|
    ensures SqNorm(a) + SqNorm(b) - 2 * Dot(a, b) == SqDist(a, b)
    decreases |a|
  {
    if |a| > 0 {
      Expansion(a[1..], b[1..]);
      assert (a[0] - b[0]) * (a[0] - b[0]) == a[0] * a[0] + b[0] * b[0] - 2 * (a[0] * b[0]);
    }
  }

  lemma {:induction false} SqDistNonNegative(a: Point, b: Point)
    requires |a| == |b|
    ensures SqDist(a, b) >= 0
    decreases |a|
  {
    if |a| > 0 {
      SqDistNonNegative(a[1..], b[1..]);
      SquareNonNegative(a[0] - b[0]);
    }
  }

  lemma SquareNonNegative(z: int)
    ensures z * z >= 0
  {
    if z < 0 {
      assert z * z == (-z) * (-z);
    }
  }

  lemma {:induction false} SqDistSymmetric(a: Point, b: Point)
    requires |a| == |b|
    ensures SqDist(a, b) == SqDist(b, a)
    decreases |a|
  {
    if |a| > 0 {
      SqDistSymmetric(a[1..], b[1..]);
      assert (a[0] - b[0]) * (a[0] - b[0]) == (b[0] - a[0]) * (b[0] - a[0]);
    }
  }

  /** Distance zero exactly when the points coincide. */
  lemma {:induction false} SqDistZero(a: Point, b: Point)
    requires |a| == |b|
    ensures SqDist(a, b) == 0 <==> a == b
    decreases |a|
  {
    if |a| > 0 {
      SqDistZero(a[1..], b[1..]);
      SqDistNonNegative(a[1..], b[1..]);
      SquareNonNegative(a[0] - b[0]);
      if a[0] != b[0] {
        SquarePositive(a[0] - b[0]);
      }
      assert a == [a[0]] + a[1..] && b == [b[0]] + b[1..];
    }
  }

  lemma SquarePositive(z: int)
    requires z != 0
    ensures z * z > 0
  {
    if z < 0 {
      assert z * z == (-z) * (-z);
    }
  }

  lemma {:induction false} DotSymmetric(a: Point, b: Point)
    requires |a| == |b|
    ensures Dot(a, b) == Dot(b, a)
    decreases |a|
  {
    if |a| > 0 {
      DotSymmetric(a[1..], b[1..]);
    }
  }

  /** `pw_dist` is a true squared-distance matrix: non-negative, symmetric, zero on
      the diagonal, and zero off it exactly where two points coincide. */
  lemma PwDistIsSquaredDistance(x: Cloud, c: nat, i: nat, j: nat)
    requires Dims(x, c) && i < |x| && j < |x|
    ensures PwDist(x, c)[i][j] == SqDist(x[i], x[j])
    ensures PwDist(x, c)[i][j] >= 0
    ensures PwDist(x, c)[i][j] == PwDist(x, c)[j][i]
    ensures PwDist(x, c)[i][i] == 0
    ensures PwDist(x, c)[i][j] == 0 <==> x[i] == x[j]
  {
    SqDistNonNegative(x[i], x[j]);
    SqDistSymmetric(x[i], x[j]);
    SqDistZero(x[i], x[i]);
    SqDistZero(x[i], x[j]);
  }

  /** `square_distance` agrees with the reference definition for every pair. */
  lemma SquareDistanceIsSqDist(src: Cloud, dst: Cloud, c: nat, n: nat, m: nat)
    requires Dims(src, c) && Dims(dst, c) && n < |src| && m < |dst|
    ensures SquareDistance(src, dst, c)[n][m] == SqDist(src[n], dst[m])
    ensures SquareDistance(src, dst, c)[n][m] >= 0
  {
    Expansion(src[n], dst[m]);
    SqDistNonNegative(src[n], dst[m]);
  }

  /** One row of squared distances: from q to every point of the cloud (`dist` of
      `farthest_point_sample`, one row of `pw_dist` or `square_distance`), equal in
      either argument order. */
  function DistancesFrom(q: Point, x: Cloud): (d: seq<int>)
    requires Dims(x, |q|)
    ensures |d| == |x|
    ensures forall j :: 0 <= j < |x| ==> d[j] == SqDist(q, x[j]) == SqDist(x[j], q)
  {
    var d := seq(|x|, j requires 0 <= j < |x| => SqDist(q, x[j]));
    assert forall j :: 0 <= j < |x| ==> d[j] == SqDist(x[j], q) by {
      forall j | 0 <= j < |x|
        ensures d[j] == SqDist(x[j], q)
      {
        SqDistSymmetric(q, x[j]);
      }
    }
    d
  }

  /** Every entry of a distance row is non-negative, and it is 0 exactly where the
      point is q itself. */
  lemma DistancesFromZero(q: Point, x: Cloud)
    requires Dims(x, |q|)
    ensures forall j :: 0 <= j < |x| ==>
      DistancesFrom(q, x)[j] >= 0 && (DistancesFrom(q, x)[j] == 0 <==> x[j] == q)
  {
    forall j | 0 <= j < |x|
      ensures DistancesFrom(q, x)[j] >= 0 && (DistancesFrom(q, x)[j] == 0 <==> x[j] == q)
    {
      SqDistNonNegative(q, x[j]);
      SqDistZero(q, x[j]);
    }
  }
}
