/** The quadratic B-spline interpolation kernel shared by P2G and G2P: the stencil base,
    the fractional offset and the per-axis weights. */
module Kernel {
  import opened Common

  /** Stencil base along one axis: `int(x * inv_dx - 0.5)`, a truncating cast. */
  function BaseAxis(xa: real): (b: int)
    ensures xa * InvDx >= 0.5 ==> b == (xa * InvDx - 0.5).Floor
    ensures -0.5 < xa * InvDx < 0.5 ==> b == 0
  {
    Trunc(xa * InvDx - 0.5)
  }

  /** Fractional offset along one axis: `x * inv_dx - base`. */
  function FracAxis(xa: real): (f: real)
    ensures BaseAxis(xa) as real + f == xa * InvDx
    ensures xa * InvDx >= 0.5 ==> 0.5 <= f < 1.5
  {
    xa * InvDx - BaseAxis(xa) as real
  }

  /** Below half a cell the truncating cast gives base 0 where the floor would give -1, so the
      offset is the scaled coordinate itself and leaves the kernel's range [0.5, 1.5). */
  lemma TruncationNearOrigin(xa: real)
    requires -0.5 < xa * InvDx < 0.5
    ensures (xa * InvDx - 0.5).Floor == -1
    ensures BaseAxis(xa) == 0 && FracAxis(xa) == xa * InvDx < 0.5
  {
  }

  /** Where a particle sits relative to the grid: its stencil base and fractional offset. */
  datatype Stencil = Stencil(base: Index3, fx: Vec3)

  function Locate(p: Vec3): (s: Stencil)
    ensures forall a :: 0 <= a < 3 ==> s.base.Get(a) as real + s.fx.Get(a) == p.Get(a) * InvDx
    ensures forall a :: 0 <= a < 3 && p.Get(a) * InvDx >= 0.5 ==> 0.5 <= s.fx.Get(a) < 1.5
  {
    Stencil(Index3(BaseAxis(p.x), BaseAxis(p.y), BaseAxis(p.z)),
            Vec3(FracAxis(p.x), FracAxis(p.y), FracAxis(p.z)))
  }

  /** One axis of the quadratic B-spline: weight of node offset `i` (0, 1 or 2) at offset `f`. */
  function AxisWeight(f: real, i: nat): real
    requires i < 3
  {
    if i == 0 then 0.5 * (1.5 - f) * (1.5 - f)
    else if i == 1 then 0.75 - (f - 1.0) * (f - 1.0)
    else 0.5 * (f - 0.5) * (f - 0.5)
  }

  /** The weight list `w = [0.5 * (1.5 - fx)^2, 0.75 - (fx - 1)^2, 0.5 * (fx - 0.5)^2]`:
      `w[i]` holds, per axis, the weight of node offset `i`. */
  function KernelWeights(fx: Vec3): (w: seq<Vec3>)
    ensures |w| == 3
    ensures forall i, a :: 0 <= i < 3 && 0 <= a < 3 ==> w[i].Get(a) == AxisWeight(fx.Get(a), i)
  {
    seq(3, i requires 0 <= i < 3 => Vec3(AxisWeight(fx.x, i), AxisWeight(fx.y, i), AxisWeight(fx.z, i)))
  }

  /** Sum of `w[0][a] + ... + w[n-1][a]`: the first `n` weights along axis `a`. */
  function AxisSum(w: seq<Vec3>, a: nat, n: nat): real
    requires a < 3 && n <= |w|
  {
    if n == 0 then 0.0 else AxisSum(w, a, n - 1) + w[n - 1].Get(a)
  }

  /** Along every axis the three weights are a partition of unity, for every offset. */
  lemma WeightsPartitionUnity(fx: Vec3, a: nat)
    requires a < 3
    ensures AxisSum(KernelWeights(fx), a, 3) == 1.0
  {
    var w := KernelWeights(fx);
    var f := fx.Get(a);
    assert AxisSum(w, a, 1) == w[0].Get(a);
    assert AxisSum(w, a, 2) == w[0].Get(a) + w[1].Get(a);
    assert AxisSum(w, a, 3) == w[0].Get(a) + w[1].Get(a) + w[2].Get(a);
    assert AxisWeight(f, 0) + AxisWeight(f, 1) + AxisWeight(f, 2) == 1.0;
  }

  /** On the kernel's range [0.5, 1.5] every weight lies in [0, 1]. */
  lemma WeightsNonNegative(f: real, i: nat)
    requires 0.5 <= f <= 1.5 && i < 3
    ensures 0.0 <= AxisWeight(f, i) <= 1.0
  {
    var d := f - 1.0;
    assert -0.5 <= d <= 0.5;
    assert d * d <= 0.25 by {
      if d >= 0.0 { assert d * d <= 0.5 * d; } else { assert d * d <= -0.5 * d; }
    }
    var e := 1.5 - f;
    assert 0.0 <= e <= 1.0;
    assert e * e <= e;
    var g := f - 0.5;
    assert 0.0 <= g <= 1.0;
    assert g * g <= g;
  }

  /** Weight of stencil node `base + (i, j, k)`: `w[i][0] * w[j][1] * w[k][2]`. */
  function Weight(w: seq<Vec3>, i: nat, j: nat, k: nat): real
    requires i < |w| && j < |w| && k < |w|
  {
    w[i].x * w[j].y * w[k].z
  }

  /** Partial sums over the 27 stencil nodes in the order `for i, j, k in ndrange(3, 3, 3)`:
      SumK sums the first `n` values of k, SumJ the first `n` rows j, SumI the first `n` planes i. */
  function SumK(w: seq<Vec3>, i: nat, j: nat, n: nat): real
    requires |w| == 3 && i < 3 && j < 3 && n <= 3
  {
    if n == 0 then 0.0 else SumK(w, i, j, n - 1) + Weight(w, i, j, n - 1)
  }

  function SumJ(w: seq<Vec3>, i: nat, n: nat): real
    requires |w| == 3 && i < 3 && n <= 3
  {
    if n == 0 then 0.0 else SumJ(w, i, n - 1) + SumK(w, i, n - 1, 3)
  }

  function SumI(w: seq<Vec3>, n: nat): real
    requires |w| == 3 && n <= 3
  {
    if n == 0 then 0.0 else SumI(w, n - 1) + SumJ(w, n - 1, 3)
  }

  lemma LeftDistribute(a: real, p: real, q: real, t: real)
    requires t == p + q
    ensures a * p + a * q == a * t
  {
  }

  lemma Rotate(a: real, b: real, c: real)
    ensures a * b * c == a * c * b && a * b * c == b * c * a
  {
  }

  lemma MulNonNegative(a: real, b: real)
    requires a >= 0.0 && b >= 0.0
    ensures a * b >= 0.0
  {
  }

  lemma {:induction false} SumKFactors(w: seq<Vec3>, i: nat, j: nat, n: nat)
    requires |w| == 3 && i < 3 && j < 3 && n <= 3
    ensures SumK(w, i, j, n) == w[i].x * w[j].y * AxisSum(w, 2, n)
  {
    if n > 0 {
      SumKFactors(w, i, j, n - 1);
      LeftDistribute(w[i].x * w[j].y, AxisSum(w, 2, n - 1), w[n - 1].z, AxisSum(w, 2, n));
    }
  }

  /** `a p z + a q z = a (p + q) z`, for any reals. */
  lemma CollectMiddle(s: real, s1: real, s2: real, a: real, p: real, q: real, z: real, t: real)
    requires s == s1 + s2 && s1 == a * p * z && s2 == a * q * z && t == p + q
    ensures s == a * t * z
  {
    LeftDistribute(a * z, p, q, t);
    Rotate(a, p, z);
    Rotate(a, q, z);
    Rotate(a, t, z);
  }

  /** `p y z + q y z = (p + q) y z`, for any reals. */
  lemma CollectFirst(s: real, s1: real, s2: real, p: real, q: real, y: real, z: real, t: real)
    requires s == s1 + s2 && s1 == p * y * z && s2 == q * y * z && t == p + q
    ensures s == t * y * z
  {
    LeftDistribute(y * z, p, q, t);
    Rotate(p, y, z);
    Rotate(q, y, z);
    Rotate(t, y, z);
  }

  lemma {:induction false} SumJFactors(w: seq<Vec3>, i: nat, n: nat)
    requires |w| == 3 && i < 3 && n <= 3
    ensures SumJ(w, i, n) == w[i].x * AxisSum(w, 1, n) * AxisSum(w, 2, 3)
  {
    if n > 0 {
      SumJFactors(w, i, n - 1);
      SumKFactors(w, i, n - 1, 3);
      CollectMiddle(SumJ(w, i, n), SumJ(w, i, n - 1), SumK(w, i, n - 1, 3),
                    w[i].x, AxisSum(w, 1, n - 1), w[n - 1].y, AxisSum(w, 2, 3), AxisSum(w, 1, n));
    }
  }

  lemma {:induction false} SumIFactors(w: seq<Vec3>, n: nat)
    requires |w| == 3 && n <= 3
    ensures SumI(w, n) == AxisSum(w, 0, n) * AxisSum(w, 1, 3) * AxisSum(w, 2, 3)
  {
    if n > 0 {
      SumIFactors(w, n - 1);
      SumJFactors(w, n - 1, 3);
      CollectFirst(SumI(w, n), SumI(w, n - 1), SumJ(w, n - 1, 3),
                   AxisSum(w, 0, n - 1), w[n - 1].x, AxisSum(w, 1, 3), AxisSum(w, 2, 3), AxisSum(w, 0, n));
    }
  }

  /** The 27 product weights of a stencil sum to 1, whatever the offset: the scatter therefore
      deposits exactly a particle's mass onto the grid. */
  lemma StencilWeightsSumToOne(fx: Vec3)
    ensures SumI(KernelWeights(fx), 3) == 1.0
  {
    var w := KernelWeights(fx);
    SumIFactors(w, 3);
    WeightsPartitionUnity(fx, 0);
    WeightsPartitionUnity(fx, 1);
    WeightsPartitionUnity(fx, 2);
  }

  /** On the kernel's range every one of the 27 product weights is non-negative. */
  lemma StencilWeightsNonNegative(fx: Vec3, i: nat, j: nat, k: nat)
    requires 0.5 <= fx.x <= 1.5 && 0.5 <= fx.y <= 1.5 && 0.5 <= fx.z <= 1.5
    requires i < 3 && j < 3 && k < 3
    ensures Weight(KernelWeights(fx), i, j, k) >= 0.0
  {
    var w := KernelWeights(fx);
    WeightsNonNegative(fx.x, i);
    WeightsNonNegative(fx.y, j);
    WeightsNonNegative(fx.z, k);
    assert w[i].x == AxisWeight(fx.x, i) && w[j].y == AxisWeight(fx.y, j) && w[k].z == AxisWeight(fx.z, k);
    MulNonNegative(w[i].x, w[j].y);
    MulNonNegative(w[i].x * w[j].y, w[k].z);
  }
}
