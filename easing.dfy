/** The cubic ease-in-out curve that shapes every segment transition. */
module Easing {

  function Cube(v: real): real { v * v * v }

  /** `easeInOutCubic`: 4x³ below one half, 1 − (−2x + 2)³ / 2 from one half on. */
  function Ease(x: real): (y: real)
    ensures 0.0 <= x < 0.5 ==> 0.0 <= y < 0.5
    ensures 0.5 <= x <= 1.0 ==> 0.5 <= y <= 1.0
  {
    if x < 0.5 then
      CubeBelowHalf(x);
      4.0 * Cube(x)
    else
      CubeBelowOne(-2.0 * x + 2.0);
      1.0 - Cube(-2.0 * x + 2.0) / 2.0
  }

  lemma CubeMonotone(a: real, b: real)
    requires 0.0 <= a <= b
    ensures Cube(a) <= Cube(b)
  {
    assert a * a <= a * b <= b * b;
    assert a * a * a <= b * b * a <= b * b * b;
  }

  lemma CubeStrictlyMonotone(a: real, b: real)
    requires 0.0 <= a < b
    ensures Cube(a) < Cube(b)
  {
    assert a * a <= a * b < b * b;
    assert a * a * a <= b * b * a < b * b * b;
  }

  lemma CubeBelowHalf(x: real)
    requires x < 0.5
    ensures 0.0 <= x ==> 0.0 <= 4.0 * Cube(x) < 0.5
  {
    if 0.0 <= x {
      CubeMonotone(0.0, x);
      CubeStrictlyMonotone(x, 0.5);
    }
  }

  lemma CubeBelowOne(v: real)
    ensures 0.0 <= v <= 1.0 ==> 0.0 <= Cube(v) <= 1.0
  {
    if 0.0 <= v <= 1.0 {
      CubeMonotone(0.0, v);
      CubeMonotone(v, 1.0);
    }
  }

  /** The curve starts at 0, passes through the midpoint and ends at 1. */
  lemma EaseFixedPoints()
    ensures Ease(0.0) == 0.0 && Ease(0.5) == 0.5 && Ease(1.0) == 1.0
  {
  }

  /** The curve never runs backwards on [0, 1]. */
  lemma EaseMonotone(x: real, y: real)
    requires 0.0 <= x <= y <= 1.0
    ensures Ease(x) <= Ease(y)
  {
    if y < 0.5 {
      CubeMonotone(x, y);
    } else if 0.5 <= x {
      CubeMonotone(-2.0 * y + 2.0, -2.0 * x + 2.0);
    }
  }

  lemma CubeDouble(v: real)
    ensures Cube(2.0 * v) == 8.0 * Cube(v)
  {
  }

  /** The curve is point-symmetric about (1/2, 1/2): easing out mirrors easing in. */
  lemma EaseSymmetric(x: real)
    ensures Ease(1.0 - x) == 1.0 - Ease(x)
  {
    if x < 0.5 {
      assert -2.0 * (1.0 - x) + 2.0 == 2.0 * x;
      CubeDouble(x);
    } else if x > 0.5 {
      assert -2.0 * x + 2.0 == 2.0 * (1.0 - x);
      CubeDouble(1.0 - x);
    }
  }
}
