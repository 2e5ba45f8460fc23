/** The DFA block: fuse two feature maps of the same shape by a learned gate.

    The gate `att = sigmoid(fc1(fc(x0 + x1)))` comes out of learned layers; the
    model takes it as a parameter whose entries lie in [0, 1] (a sigmoid's range)
    and states what the fusion `att * x0 + (1 - att) * x1` does with it. Feature
    maps are flattened to one sequence of reals. */
module Fusion {

  function Min(u: real, v: real): real {
    if u <= v then u else v
  }

  function Max(u: real, v: real): real {
    if u <= v then v else u
  }

  /** Every gate entry is a weight in [0, 1]. */
  predicate IsGate(att: seq<real>) {
    forall i :: 0 <= i < |att| ==> 0.0 <= att[i] <= 1.0
  }

  /** `att * x[0] + (1 - att) * x[1]`, entry by entry. */
  function Fuse(att: seq<real>, x0: seq<real>, x1: seq<real>): (r: seq<real>)
    requires |att| == |x0| == |x1|
    ensures |r| == |x0|
    ensures forall i :: 0 <= i < |x0| ==> r[i] - x1[i] == att[i] * (x0[i] - x1[i])
  {
    seq(|x0|, i requires 0 <= i < |x0| => att[i] * x0[i] + (1.0 - att[i]) * x1[i])
  }

  lemma ProductSign(p: real, q: real)
    ensures p >= 0.0 && q >= 0.0 ==> p * q >= 0.0
    ensures p > 0.0 && q > 0.0 ==> p * q > 0.0
  {
  }

  /** A weight in [0, 1] blends two values into the interval they span; strictly
      inside it when the weight is strictly inside (0, 1) and the values differ. */
  lemma Blend(a: real, u: real, v: real)
    requires 0.0 <= a <= 1.0
    ensures Min(u, v) <= a * u + (1.0 - a) * v <= Max(u, v)
    ensures 0.0 < a < 1.0 && u != v ==> Min(u, v) < a * u + (1.0 - a) * v < Max(u, v)
  {
    var lo, hi := Min(u, v), Max(u, v);
    ProductSign(a, hi - lo);
    ProductSign(1.0 - a, hi - lo);
    if u <= v {
      assert a * u + (1.0 - a) * v == lo + (1.0 - a) * (hi - lo) == hi - a * (hi - lo);
    } else {
      assert a * u + (1.0 - a) * v == lo + a * (hi - lo) == hi - (1.0 - a) * (hi - lo);
    }
  }

  /** The fused map never leaves the entrywise range of its two inputs. */
  lemma FuseBetween(att: seq<real>, x0: seq<real>, x1: seq<real>)
    requires |att| == |x0| == |x1| && IsGate(att)
    ensures forall i :: 0 <= i < |x0| ==>
      Min(x0[i], x1[i]) <= Fuse(att, x0, x1)[i] <= Max(x0[i], x1[i])
  {
    forall i | 0 <= i < |x0|
      ensures Min(x0[i], x1[i]) <= Fuse(att, x0, x1)[i] <= Max(x0[i], x1[i])
    {
      Blend(att[i], x0[i], x1[i]);
    }
  }

  /** Where the two branches agree, the gate has no effect. */
  lemma FuseAgreeing(att: seq<real>, x: seq<real>)
    requires |att| == |x|
    ensures Fuse(att, x, x) == x
  {
    var r := Fuse(att, x, x);
    forall i | 0 <= i < |x|
      ensures r[i] == x[i]
    {
      assert r[i] == att[i] * x[i] + (1.0 - att[i]) * x[i];
    }
  }

  /** A gate of all ones selects the first branch, of all zeros the second. */
  lemma FuseSelects(att: seq<real>, x0: seq<real>, x1: seq<real>)
    requires |att| == |x0| == |x1|
    ensures (forall i :: 0 <= i < |att| ==> att[i] == 1.0) ==> Fuse(att, x0, x1) == x0
    ensures (forall i :: 0 <= i < |att| ==> att[i] == 0.0) ==> Fuse(att, x0, x1) == x1
  {
    var r := Fuse(att, x0, x1);
    if forall i :: 0 <= i < |att| ==> att[i] == 1.0 {
      forall i | 0 <= i < |x0|
        ensures r[i] == x0[i]
      {
        assert r[i] == 1.0 * x0[i] + 0.0 * x1[i];
      }
    }
    if forall i :: 0 <= i < |att| ==> att[i] == 0.0 {
      forall i | 0 <= i < |x0|
        ensures r[i] == x1[i]
      {
        assert r[i] == 0.0 * x0[i] + 1.0 * x1[i];
      }
    }
  }
}
