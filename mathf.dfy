/** The two engine math helpers the mixer and the fades use, on exact reals. */
module Mathf {

  /** Clamps a value into the unit interval. */
  function Clamp01(x: real): (r: real)
    ensures 0.0 <= r <= 1.0
    ensures 0.0 <= x <= 1.0 ==> r == x
    ensures x < 0.0 ==> r == 0.0
    ensures x > 1.0 ==> r == 1.0
  {
    if x < 0.0 then 0.0 else if x > 1.0 then 1.0 else x
  }

  /** `r` lies on the closed segment between `a` and `b`, whichever is larger. */
  predicate Between(r: real, a: real, b: real)
  {
    (a <= r <= b) || (b <= r <= a)
  }

  /** Linear interpolation whose parameter is clamped to [0, 1] first. */
  function Lerp(a: real, b: real, t: real): (r: real)
    ensures Between(r, a, b)
    ensures t >= 1.0 ==> r == b
    ensures t <= 0.0 ==> r == a
    ensures a == b ==> r == a
  {
    var u := Clamp01(t);
    ScaledStepBetween(a, b, u);
    a + (b - a) * u
  }

  lemma ScaledStepBetween(a: real, b: real, u: real)
    requires 0.0 <= u <= 1.0
    ensures Between(a + (b - a) * u, a, b)
  {
    var d := if a <= b then b - a else a - b;
    ProductNonNegative(d, u);
    ProductNonNegative(d, 1.0 - u);
    assert d * (1.0 - u) == d - d * u;
  }

  /** A later parameter moves the interpolation further from `a` towards `b`. */
  lemma LerpMonotone(a: real, b: real, t1: real, t2: real)
    requires t1 <= t2
    ensures a <= b ==> Lerp(a, b, t1) <= Lerp(a, b, t2)
    ensures b <= a ==> Lerp(a, b, t2) <= Lerp(a, b, t1)
  {
    var u1 := Clamp01(t1);
    var u2 := Clamp01(t2);
    assert u1 <= u2;
    if a <= b {
      ProductNonNegative(b - a, u2 - u1);
      assert (b - a) * u2 - (b - a) * u1 == (b - a) * (u2 - u1);
    } else {
      ProductNonNegative(a - b, u2 - u1);
      assert (a - b) * u2 - (a - b) * u1 == (a - b) * (u2 - u1);
    }
  }

  lemma ProductNonNegative(x: real, y: real)
    requires x >= 0.0 && y >= 0.0
    ensures x * y >= 0.0
  {
  }
}
