/** Calibration arithmetic of the face-control service: the clamp, the
    linear remap of a normalized measurement onto a servo's angle range,
    the roll bias correction and JavaScript's `Math.round`.
    Numbers are exact reals here; the source computes in IEEE doubles. */
module Calibration {

  function Min(a: real, b: real): real { if a <= b then a else b }
  function Max(a: real, b: real): real { if a >= b then a else b }

  /** Slope and intercept of the roll bias correction. */
  const M: real := 0.001
  const B: real := 0.102

  /** `clamp(v, min = 0, max = 1)`, written as `Math.max(min, Math.min(max, v))`. */
  function Clamp(v: real, lo: real := 0.0, hi: real := 1.0): (r: real)
    ensures lo <= hi ==> lo <= r <= hi
    ensures lo <= v <= hi ==> r == v
    ensures v < lo ==> r == lo
    ensures lo <= hi && hi < v ==> r == hi
  {
    Max(lo, Min(hi, v))
  }

  lemma ClampMonotone(v1: real, v2: real)
    requires v1 <= v2
    ensures Clamp(v1) <= Clamp(v2)
  {
  }

  /** `map(v, iMin, iMax, oMin, oMax)`: the position of `v` in the input
      range, clamped to [0, 1], scaled onto the output range. The output
      range may be descending (an inverted actuator). */
  function Remap(v: real, iMin: real, iMax: real, oMin: real, oMax: real): (r: real)
    requires iMin < iMax
    ensures Min(oMin, oMax) <= r <= Max(oMin, oMax)
    ensures v <= iMin ==> r == oMin
    ensures iMax <= v ==> r == oMax
  {
    var t := Clamp((v - iMin) / (iMax - iMin));
    RatioPastEnds(v, iMin, iMax);
    ScaleWithin(t, oMin, oMax);
    oMin + t * (oMax - oMin)
  }

  /** The position of `v` in the input range is at most 0 at or below its
      start and at least 1 at or above its end. */
  lemma RatioPastEnds(v: real, iMin: real, iMax: real)
    requires iMin < iMax
    ensures v <= iMin ==> (v - iMin) / (iMax - iMin) <= 0.0
    ensures iMax <= v ==> 1.0 <= (v - iMin) / (iMax - iMin)
  {
    var d := iMax - iMin;
    var u := (v - iMin) / d;
    assert u * d == v - iMin;
    if v <= iMin && u > 0.0 {
      MulNonNegative(u, d);
    }
    if iMax <= v && u < 1.0 {
      MulNonNegative(1.0 - u, d);
    }
  }

  /** Interpolating with a weight in [0, 1] stays between the endpoints. */
  lemma ScaleWithin(t: real, lo: real, hi: real)
    requires 0.0 <= t <= 1.0
    ensures Min(lo, hi) <= lo + t * (hi - lo) <= Max(lo, hi)
  {
    if lo <= hi {
      MulNonNegative(t, hi - lo);
      MulNonNegative(1.0 - t, hi - lo);
    } else {
      MulNonNegative(t, lo - hi);
      MulNonNegative(1.0 - t, lo - hi);
    }
  }

  lemma MulNonNegative(a: real, b: real)
    requires 0.0 <= a && 0.0 <= b
    ensures 0.0 <= a * b
  {
  }

  lemma DivMonotone(a: real, b: real, d: real)
    requires a <= b && 0.0 < d
    ensures a / d <= b / d
  {
    assert b / d - a / d == (b - a) / d;
  }

  /** Moving the weight of an interpolation moves the result toward the
      endpoint it weighs. */
  lemma LerpMonotone(t1: real, t2: real, lo: real, hi: real)
    requires t1 <= t2
    ensures lo <= hi ==> lo + t1 * (hi - lo) <= lo + t2 * (hi - lo)
    ensures hi <= lo ==> lo + t2 * (hi - lo) <= lo + t1 * (hi - lo)
  {
    assert (lo + t2 * (hi - lo)) - (lo + t1 * (hi - lo)) == (t2 - t1) * (hi - lo);
    if lo <= hi {
      MulNonNegative(t2 - t1, hi - lo);
    } else {
      MulNonNegative(t2 - t1, lo - hi);
    }
  }

  /** `map` follows the direction of its output range: non-decreasing in
      `v` for an ascending range, non-increasing for a descending one. */
  lemma RemapMonotone(v1: real, v2: real, iMin: real, iMax: real, oMin: real, oMax: real)
    requires iMin < iMax
    requires v1 <= v2
    ensures oMin <= oMax ==> Remap(v1, iMin, iMax, oMin, oMax) <= Remap(v2, iMin, iMax, oMin, oMax)
    ensures oMax <= oMin ==> Remap(v2, iMin, iMax, oMin, oMax) <= Remap(v1, iMin, iMax, oMin, oMax)
  {
    var d := iMax - iMin;
    var u1, u2 := (v1 - iMin) / d, (v2 - iMin) / d;
    DivMonotone(v1 - iMin, v2 - iMin, d);
    ClampMonotone(u1, u2);
    LerpMonotone(Clamp(u1), Clamp(u2), oMin, oMax);
    RemapUnfold(v1, iMin, iMax, oMin, oMax);
    RemapUnfold(v2, iMin, iMax, oMin, oMax);
  }

  lemma RemapUnfold(v: real, iMin: real, iMax: real, oMin: real, oMax: real)
    requires iMin < iMax
    ensures Remap(v, iMin, iMax, oMin, oMax) == oMin + Clamp((v - iMin) / (iMax - iMin)) * (oMax - oMin)
  {
  }

  /** `Math.round`: the nearest integer, halves rounded toward +infinity. */
  function Round(x: real): (n: int)
    ensures x - 0.5 < n as real <= x + 0.5
  {
    (x + 0.5).Floor
  }

  /** The result of `Math.round` is the only integer within half a unit
      below or at half a unit above; this pins down ties, e.g. -2.5 -> -2. */
  lemma RoundUnique(x: real, k: int)
    requires x - 0.5 < k as real <= x + 0.5
    ensures Round(x) == k
  {
  }

  /** Rounding a value lying between two integers cannot leave them. */
  lemma RoundWithin(x: real, lo: int, hi: int)
    requires lo as real <= x <= hi as real
    ensures lo <= Round(x) <= hi
  {
  }

  lemma RoundMonotone(x: real, y: real)
    requires x <= y
    ensures Round(x) <= Round(y)
  {
  }

  /** `normDelta - m * roll + b`: the roll-dependent bias correction. */
  function Correct(normDelta: real, roll: real): (r: real)
    ensures roll == 0.0 ==> r == normDelta + B
    ensures roll < 0.0 ==> r > normDelta + B
    ensures roll > 0.0 ==> r < normDelta + B
  {
    normDelta - M * roll + B
  }
}
