/** The per-singular-value plasticity step of the constitutive update. The singular value
    decomposition itself is outside the model: the singular values arrive as inputs. */
module Plasticity {
  import opened Common

  /** Snow's admissible stretch interval [1 - 2.5e-2, 1 + 4.5e-3]. */
  const SnowLow: real := 0.975
  const SnowHigh: real := 1.0045

  /** `min(max(sig, 1 - 2.5e-2), 1 + 4.5e-3)`. */
  function SnowClamp(s: real): (r: real)
    ensures SnowLow <= r <= SnowHigh
    ensures SnowLow <= s <= SnowHigh ==> r == s
    ensures s < SnowLow ==> r == SnowLow
    ensures s > SnowHigh ==> r == SnowHigh
  {
    var m := if s > SnowLow then s else SnowLow;
    if m < SnowHigh then m else SnowHigh
  }

  /** The singular value kept by a particle of `material`: clamped for snow, unchanged otherwise. */
  function NewSigma(material: int, s: real): real {
    if material == Snow then SnowClamp(s) else s
  }

  /** The ratio `sig / new_sig` is defined for every value: never true of a zero singular value
      of jelly, which the source would turn into a NaN. */
  predicate Divisible(material: int, sig: seq<real>) {
    forall d :: 0 <= d < |sig| ==> NewSigma(material, sig[d]) != 0.0
  }

  /** The kept singular values, in order. */
  function Clamped(material: int, sig: seq<real>): (r: seq<real>)
    ensures |r| == |sig|
    ensures forall d :: 0 <= d < |sig| ==> r[d] == NewSigma(material, sig[d])
  {
    seq(|sig|, d requires 0 <= d < |sig| => NewSigma(material, sig[d]))
  }

  /** Product of a sequence, accumulated left to right. */
  function Prod(s: seq<real>): real {
    if |s| == 0 then 1.0 else Prod(s[..|s| - 1]) * s[|s| - 1]
  }

  lemma ProdSnoc(s: seq<real>, x: real)
    ensures Prod(s + [x]) == Prod(s) * x
  {
    assert (s + [x])[..|s|] == s;
  }

  /** `Jp` after the loop has multiplied it by `sig[d] / new_sig[d]` for each value in turn. */
  function JpAfter(material: int, sig: seq<real>, jp: real): real
    requires Divisible(material, sig)
  {
    if |sig| == 0 then jp
    else
      var s := sig[|sig| - 1];
      JpAfter(material, sig[..|sig| - 1], jp) * (s / NewSigma(material, s))
  }

  lemma Associate(a: real, b: real, c: real)
    ensures (a * b) * c == a * (b * c)
  {
  }

  lemma Regroup(a: real, b: real, c: real, d: real)
    requires d != 0.0
    ensures (a * (c / d)) * (b * d) == (a * b) * c
  {
  }

  /** What plasticity removes from the elastic volume it adds to `Jp`: the new `Jp` times the
      product of the kept values equals the old `Jp` times the product of the singular values. */
  lemma {:induction false} VolumeConserved(material: int, sig: seq<real>, jp: real)
    requires Divisible(material, sig)
    ensures JpAfter(material, sig, jp) * Prod(Clamped(material, sig)) == jp * Prod(sig)
  {
    if |sig| > 0 {
      var n := |sig| - 1;
      var s := sig[n];
      assert Divisible(material, sig[..n]);
      VolumeConserved(material, sig[..n], jp);
      assert Clamped(material, sig)[..n] == Clamped(material, sig[..n]);
      Regroup(JpAfter(material, sig[..n], jp), Prod(Clamped(material, sig[..n])), s, NewSigma(material, s));
      Associate(jp, Prod(sig[..n]), s);
    }
  }

  /** Jelly and water keep every singular value, so `Jp` is left unchanged. */
  lemma {:induction false} NonSnowKeepsJp(material: int, sig: seq<real>, jp: real)
    requires material != Snow && Divisible(material, sig)
    ensures Clamped(material, sig) == sig && JpAfter(material, sig, jp) == jp
  {
    if |sig| > 0 {
      var n := |sig| - 1;
      assert Divisible(material, sig[..n]);
      NonSnowKeepsJp(material, sig[..n], jp);
      assert NewSigma(material, sig[n]) == sig[n];
      DivSelf(sig[n]);
    }
  }

  lemma DivSelf(t: real)
    requires t != 0.0
    ensures t / t == 1.0
  {
  }

  /** `0 < s <= c` gives `0 < s / c <= 1`, strictly below 1 when `s < c`. */
  lemma Ratio(s: real, c: real)
    requires 0.0 < s <= c
    ensures 0.0 < s / c <= 1.0
    ensures s < c ==> s / c < 1.0
  {
  }

  /** Scaling a positive value by a factor in (0, 1] never raises it, and strictly lowers it when
      the factor is below 1. */
  lemma Shrink(f: real, r: real)
    requires f > 0.0 && 0.0 < r <= 1.0
    ensures 0.0 < f * r <= f
    ensures r < 1.0 ==> f * r < f
  {
  }

  /** Snow nowhere stretched beyond its limit never gains `Jp` from plasticity. */
  lemma {:induction false} SnowNeverRaisesJp(sig: seq<real>, jp: real)
    requires forall d :: 0 <= d < |sig| ==> 0.0 < sig[d] <= SnowHigh
    requires jp > 0.0
    ensures 0.0 < JpAfter(Snow, sig, jp) <= jp
  {
    if |sig| > 0 {
      var n := |sig| - 1;
      var s := sig[n];
      assert JpAfter(Snow, sig, jp) == JpAfter(Snow, sig[..n], jp) * (s / SnowClamp(s));
      SnowNeverRaisesJp(sig[..n], jp);
      Ratio(s, SnowClamp(s));
      Shrink(JpAfter(Snow, sig[..n], jp), s / SnowClamp(s));
    }
  }

  /** Snow compressed below its limit on axis `k` (and nowhere stretched beyond its upper limit)
      loses `Jp`: the compression is absorbed plastically. */
  lemma {:induction false} SnowCompressionLowersJp(sig: seq<real>, jp: real, k: nat)
    requires forall d :: 0 <= d < |sig| ==> 0.0 < sig[d] <= SnowHigh
    requires k < |sig| && sig[k] < SnowLow
    requires jp > 0.0
    ensures JpAfter(Snow, sig, jp) < jp
  {
    var n := |sig| - 1;
    var s := sig[n];
    var f := JpAfter(Snow, sig[..n], jp);
    var c := SnowClamp(s);
    var r := s / c;
    var after := JpAfter(Snow, sig, jp);
    assert after == f * r;
    Ratio(s, c);
    SnowNeverRaisesJp(sig[..n], jp);
    Shrink(f, r);
    if k < n {
      SnowCompressionLowersJp(sig[..n], jp, k);
      assert after <= f < jp;
    } else {
      assert c == SnowLow && s < c;
      assert after < f <= jp;
    }
  }

  /** One pass of the loop body keeps the loop's three accumulators in step with their
      specifications. */
  lemma PlasticStep(material: int, sig: seq<real>, jp: real, d: nat,
                    curJp: real, curJ: real, cur: seq<real>, ns: real)
    requires d < |sig| && Divisible(material, sig)
    requires cur == Clamped(material, sig[..d])
    requires curJp == JpAfter(material, sig[..d], jp)
    requires curJ == Prod(cur)
    requires ns == NewSigma(material, sig[d])
    ensures ns != 0.0
    ensures cur + [ns] == Clamped(material, sig[..d + 1])
    ensures curJp * (sig[d] / ns) == JpAfter(material, sig[..d + 1], jp)
    ensures curJ * ns == Prod(cur + [ns])
  {
    assert sig[..d + 1][..d] == sig[..d];
    ProdSnoc(cur, ns);
  }

  /** The loop `for d in range(3)` of the constitutive update: each singular value is replaced by
      its kept value, `Jp` is multiplied by `sig / new_sig` and `J` accumulates the kept values. */
  method PlasticityUpdate(material: int, sig: seq<real>, jp: real)
    returns (newSig: seq<real>, newJp: real, J: real)
    requires |sig| == 3 && Divisible(material, sig)
    ensures newSig == Clamped(material, sig)
    ensures newJp == JpAfter(material, sig, jp)
    ensures J == Prod(newSig)
    ensures material == Snow ==> forall d :: 0 <= d < 3 ==> SnowLow <= newSig[d] <= SnowHigh
    ensures material != Snow ==> newSig == sig && newJp == jp
  {
    newSig, newJp, J := [], jp, 1.0;
    for d := 0 to 3
      invariant newSig == Clamped(material, sig[..d])
      invariant newJp == JpAfter(material, sig[..d], jp)
      invariant J == Prod(newSig)
    {
      var s := sig[d];
      var ns := NewSigma(material, s);
      PlasticStep(material, sig, jp, d, newJp, J, newSig, ns);
      newJp := newJp * (s / ns);
      newSig := newSig + [ns];
      J := J * ns;
    }
    assert sig[..3] == sig;
    assert newSig == Clamped(material, sig) && newJp == JpAfter(material, sig, jp);
    if material != Snow {
      NonSnowKeepsJp(material, sig, jp);
    }
  }
}
