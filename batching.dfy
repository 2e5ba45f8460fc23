/** Batch flattening: how the neighbour layer gathers points of a whole batch at once.

    The clouds of a batch are viewed as one (B*N, C) table of points (row f holds
    point f % N of cloud f / N), the neighbour indices of cloud b are shifted by
    `idx_base = b * N`, and the table is indexed with the shifted indices. */
module Batching {
  import opened Tensor

  /** `idx + idx_base`: the row of point i of cloud b in the flattened table. */
  function FlatIndex(b: nat, i: nat, n: nat): (r: nat)
    ensures i < n ==> r / n == b && r % n == i
  {
    if i < n then
      DivModUnique(b * n + i, n, b, i);
      b * n + i
    else
      b * n + i
  }

  /** Flat indices are in bounds and decode back to (cloud, point). */
  lemma FlatIndexDecodes(bs: nat, n: nat, b: nat, i: nat)
    requires b < bs && i < n
    ensures FlatIndex(b, i, n) < bs * n
    ensures FlatIndex(b, i, n) / n == b && FlatIndex(b, i, n) % n == i
  {
    var f := FlatIndex(b, i, n);
    assert f < bs * n by {
      assert b + 1 <= bs;
      MulMonotone(b + 1, bs, n);
      assert (b + 1) * n == b * n + n;
    }
    DivModUnique(f, n, b, i);
  }

  lemma MulMonotone(a: nat, a': nat, n: nat)
    requires a <= a'
    ensures a * n <= a' * n
  {
    assert a' * n == a * n + (a' - a) * n;
  }

  /** The quotient and remainder of b * n + i by n, when 0 <= i < n. */
  lemma DivModUnique(f: nat, n: nat, b: nat, i: nat)
    requires i < n && f == b * n + i
    ensures f / n == b && f % n == i
  {
    var q, r := f / n, f % n;
    assert f == q * n + r && 0 <= r < n;
    assert (q - b) * n == i - r;
    MulAwayFromZero(q - b, n);
  }

  /** A non-zero multiple of n is at least n away from zero. */
  lemma MulAwayFromZero(d: int, n: int)
    requires n >= 0
    ensures d >= 1 ==> d * n >= n
    ensures d <= -1 ==> d * n <= -n
  {
    if d >= 1 {
      MulMonotone(1, d, n);
    } else if d <= -1 {
      MulMonotone(1, -d, n);
      assert d * n == -((-d) * n);
    }
  }

  /** Every cloud of the batch has n points. */
  predicate Sized(xs: Batch, n: nat) {
    forall b :: 0 <= b < |xs| ==> |xs[b]| == n
  }

  lemma RowInBatch(bs: nat, n: nat, f: nat)
    requires f < bs * n
    ensures n > 0 && f / n < bs && f % n < n
  {
    assert n != 0 by {
      assert n == 0 ==> bs * n == 0;
    }
    var q := f / n;
    assert f == q * n + f % n;
    assert q < bs by {
      assert q >= bs ==> bs * n <= q * n by {
        if q >= bs {
          MulMonotone(bs, q, n);
        }
      }
    }
  }

  /** `x.view(batch_size * num_points, -1)`: row f is point f % n of cloud f / n. */
  function FlattenBatch(xs: Batch, n: nat): (r: Cloud)
    requires Sized(xs, n)
    ensures |r| == |xs| * n
    ensures forall b, i :: 0 <= b < |xs| && 0 <= i < n ==>
      FlatIndex(b, i, n) < |r| && r[FlatIndex(b, i, n)] == xs[b][i]
  {
    var r := seq(|xs| * n, f requires 0 <= f < |xs| * n =>
      RowInBatch(|xs|, n, f);
      xs[f / n][f % n]);
    assert forall b, i :: 0 <= b < |xs| && 0 <= i < n ==>
      FlatIndex(b, i, n) < |r| && r[FlatIndex(b, i, n)] == xs[b][i] by {
      forall b, i | 0 <= b < |xs| && 0 <= i < n
        ensures FlatIndex(b, i, n) < |r| && r[FlatIndex(b, i, n)] == xs[b][i]
      {
        FlatIndexDecodes(|xs|, n, b, i);
      }
    }
    r
  }

  /** Row FlatIndex(b, i, n) of the table is point i of cloud b. */
  lemma FlattenBatchAt(xs: Batch, n: nat, b: nat, i: nat)
    requires Sized(xs, n) && b < |xs| && i < n
    ensures FlatIndex(b, i, n) < |FlattenBatch(xs, n)|
    ensures FlattenBatch(xs, n)[FlatIndex(b, i, n)] == xs[b][i]
  {
    FlatIndexDecodes(|xs|, n, b, i);
  }

  /** Shifted indices fit the table: b * n + idx[b][i][j] < B * n. */
  predicate FitsTable(idx: seq<seq<seq<nat>>>, bs: nat, n: nat) {
    forall b, i, j :: 0 <= b < |idx| && 0 <= i < |idx[b]| && 0 <= j < |idx[b][i]| ==>
      b < bs && FlatIndex(b, idx[b][i][j], n) < bs * n
  }

  /** Indices of cloud b stay inside cloud b: 0 <= idx[b][i][j] < n. */
  predicate WithinCloud(idx: seq<seq<seq<nat>>>, n: nat) {
    forall b, i, j :: 0 <= b < |idx| && 0 <= i < |idx[b]| && 0 <= j < |idx[b][i]| ==>
      idx[b][i][j] < n
  }

  lemma WithinCloudFits(idx: seq<seq<seq<nat>>>, bs: nat, n: nat)
    requires |idx| <= bs && WithinCloud(idx, n)
    ensures FitsTable(idx, bs, n)
  {
    forall b, i, j | 0 <= b < |idx| && 0 <= i < |idx[b]| && 0 <= j < |idx[b][i]|
      ensures FlatIndex(b, idx[b][i][j], n) < bs * n
    {
      FlatIndexDecodes(bs, n, b, idx[b][i][j]);
    }
  }

  /** `x.view(B*N, -1)[idx + idx_base, :]`, reshaped to (B, N, k): the gathered point
      for neighbour j of point i of cloud b. Whenever the index stays inside its own
      cloud, the gathered point is that cloud's point: nothing crosses batches. */
  function GatherNeighbours(xs: Batch, n: nat, idx: seq<seq<seq<nat>>>): (r: seq<seq<seq<Point>>>)
    requires Sized(xs, n) && |idx| == |xs| && FitsTable(idx, |xs|, n)
    ensures |r| == |idx|
    ensures forall b :: 0 <= b < |idx| ==>
      |r[b]| == |idx[b]| && forall i :: 0 <= i < |idx[b]| ==> |r[b][i]| == |idx[b][i]|
    ensures forall b, i, j ::
      0 <= b < |idx| && 0 <= i < |idx[b]| && 0 <= j < |idx[b][i]| && idx[b][i][j] < n ==>
      r[b][i][j] == xs[b][idx[b][i][j]]
  {
    var table := FlattenBatch(xs, n);
    var r := seq(|idx|, b requires 0 <= b < |idx| =>
      seq(|idx[b]|, i requires 0 <= i < |idx[b]| =>
        seq(|idx[b][i]|, j requires 0 <= j < |idx[b][i]| =>
          table[FlatIndex(b, idx[b][i][j], n)])));
    assert forall b, i, j ::
      0 <= b < |idx| && 0 <= i < |idx[b]| && 0 <= j < |idx[b][i]| && idx[b][i][j] < n ==>
      r[b][i][j] == xs[b][idx[b][i][j]] by {
      forall b, i, j | 0 <= b < |idx| && 0 <= i < |idx[b]| && 0 <= j < |idx[b][i]| && idx[b][i][j] < n
        ensures r[b][i][j] == xs[b][idx[b][i][j]]
      {
        FlattenBatchAt(xs, n, b, idx[b][i][j]);
      }
    }
    r
  }

  /** The guard above matters: the table does not check idx < N, so an index N in
      cloud b reads point 0 of cloud b + 1. */
  lemma GatherPastCloudEnd(xs: Batch, n: nat, idx: seq<seq<seq<nat>>>, b: nat, i: nat, j: nat)
    requires Sized(xs, n) && |idx| == |xs| && FitsTable(idx, |xs|, n)
    requires b + 1 < |xs| && i < |idx[b]| && j < |idx[b][i]| && idx[b][i][j] == n && n > 0
    ensures GatherNeighbours(xs, n, idx)[b][i][j] == xs[b + 1][0]
  {
    assert FlatIndex(b, n, n) == FlatIndex(b + 1, 0, n);
    FlattenBatchAt(xs, n, b + 1, 0);
  }

  /** `index_points(points, idx)`: `points[batch_indices, idx, :]` where
      `batch_indices[b][s] == b`, so sample s of cloud b is point idx[b][s] of cloud b,
      the same point the flattened table holds at row b * N + idx[b][s]. */
  function IndexPoints(points: Batch, idx: seq<seq<nat>>): (r: seq<seq<Point>>)
    requires |idx| == |points|
    requires forall b, s :: 0 <= b < |idx| && 0 <= s < |idx[b]| ==> idx[b][s] < |points[b]|
    ensures |r| == |idx| && forall b :: 0 <= b < |idx| ==> |r[b]| == |idx[b]|
    ensures forall b, s :: 0 <= b < |idx| && 0 <= s < |idx[b]| ==> r[b][s] == points[b][idx[b][s]]
    ensures forall n :: Sized(points, n) ==>
      forall b, s :: 0 <= b < |idx| && 0 <= s < |idx[b]| ==>
        FlatIndex(b, idx[b][s], n) < |FlattenBatch(points, n)| &&
        r[b][s] == FlattenBatch(points, n)[FlatIndex(b, idx[b][s], n)]
  {
    // `batch_indices` holds b at every position of row b, so it selects cloud b.
    var r := seq(|idx|, b requires 0 <= b < |idx| =>
      seq(|idx[b]|, s requires 0 <= s < |idx[b]| => points[b][idx[b][s]]));
    assert forall n :: Sized(points, n) ==>
      forall b, s :: 0 <= b < |idx| && 0 <= s < |idx[b]| ==>
        FlatIndex(b, idx[b][s], n) < |FlattenBatch(points, n)| &&
        r[b][s] == FlattenBatch(points, n)[FlatIndex(b, idx[b][s], n)] by {
      forall n, b, s | Sized(points, n) && 0 <= b < |idx| && 0 <= s < |idx[b]|
        ensures FlatIndex(b, idx[b][s], n) < |FlattenBatch(points, n)|
        ensures r[b][s] == FlattenBatch(points, n)[FlatIndex(b, idx[b][s], n)]
      {
        FlattenBatchAt(points, n, b, idx[b][s]);
      }
    }
    r
  }
}
