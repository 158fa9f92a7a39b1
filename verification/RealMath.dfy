/** Arithmetic over the reals shared by the control-loop models. */
module RealMath {

  function Max(x: real, y: real): real { if x < y then y else x }

  function Min(x: real, y: real): real { if x < y then x else y }

  /** Keeps `x` inside [lo, hi], with the floor winning when the two bounds cross. */
  function Clamp(lo: real, hi: real, x: real): real { Max(lo, Min(hi, x)) }

  /** The least integer that is not below `x`. */
  function Ceil(x: real): (n: int)
    ensures x <= n as real < x + 1.0
  {
    -((-x).Floor)
  }

  lemma CeilMono(x: real, y: real)
    requires x <= y
    ensures Ceil(x) <= Ceil(y)
  {
  }

  function Pow(b: real, n: nat): real { if n == 0 then 1.0 else b * Pow(b, n - 1) }

  /** A product by name, for proofs that need only its order. */
  function Times(x: real, k: real): real { x * k }

  lemma TimesMono(x: real, y: real, k: real)
    requires 0.0 <= k && x <= y
    ensures Times(x, k) <= Times(y, k)
  {
    MulMono(k, x, y);
  }

  lemma TimesStrict(x: real, y: real, k: real)
    requires 0.0 < k && x < y
    ensures Times(x, k) < Times(y, k)
  {
    var d := y - x;
    assert 0.0 < d * k;
    assert y * k == x * k + d * k;
  }

  lemma TimesCommutes(x: real, k: real)
    ensures Times(x, k) == Times(k, x)
  {
  }

  lemma MulMono(k: real, x: real, y: real)
    requires 0.0 <= k && x <= y
    ensures k * x <= k * y
  {
  }

  lemma MulNonNeg(x: real, y: real)
    requires 0.0 <= x && 0.0 <= y
    ensures 0.0 <= x * y
  {
  }

  /** Cancelling a positive factor. */
  lemma MulCancel(k: real, x: real, y: real)
    requires 0.0 < k && k * x <= k * y
    ensures x <= y
  {
    assert k * (y - x) == k * y - k * x;
  }

  /** The inductive step of Bernoulli's inequality for a decay by the factor 1 - f. */
  lemma DecayStep(f: real, m: real)
    requires 0.0 <= f && 0.0 <= m
    ensures (1.0 - f) * (1.0 + (m + 1.0) * f) <= 1.0 + m * f
  {
    assert 0.0 <= f * f;
    MulMono(m + 1.0, 0.0, f * f);
    assert (1.0 - f) * (1.0 + (m + 1.0) * f) == 1.0 + m * f - (m + 1.0) * (f * f);
  }
}
