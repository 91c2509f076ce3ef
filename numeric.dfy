/** The small numeric helpers of app.js: `lerp`, `clamp` and `easeInOut`, on exact reals. */
module Numeric {

  function Max(a: real, b: real): real { if a >= b then a else b }
  function Min(a: real, b: real): real { if a <= b then a else b }

  lemma NonNegProduct(x: real, y: real)
    requires 0.0 <= x && 0.0 <= y
    ensures 0.0 <= x * y
  {
  }

  lemma PositiveProduct(x: real, y: real)
    requires 0.0 < x && 0.0 < y
    ensures 0.0 < x * y
  {
  }

  function Square(x: real): real { x * x }

  /** A non-zero number has a positive square. */
  lemma SquarePositive(x: real)
    requires x != 0.0
    ensures 0.0 < Square(x)
  {
    var y := if x > 0.0 then x else -x;
    var h := y / 2.0;
    PositiveProduct(y, h);
    assert Square(x) == 2.0 * (y * h);
  }

  /** A product of non-negative factors grows with each factor. */
  lemma ProductAtMost(x: real, y: real, mx: real, my: real)
    requires 0.0 <= x <= mx && 0.0 <= y <= my
    ensures x * y <= mx * my
  {
    var dx, dy := mx - x, my - y;
    NonNegProduct(dx, y);
    NonNegProduct(mx, dy);
    assert mx * my - x * y == dx * y + mx * dy;
  }

  lemma MulMonotone(a: real, b: real, c: real)
    requires a <= b && 0.0 <= c
    ensures a * c <= b * c
  {
    var d := b - a;
    NonNegProduct(d, c);
    assert b * c - a * c == d * c;
  }

  /** Scaling by a factor in [0, 1] stays between 0 and the original. */
  lemma ScaleWithin(d: real, t: real)
    requires 0.0 <= d && 0.0 <= t <= 1.0
    ensures 0.0 <= d * t <= d
  {
    var u := 1.0 - t;
    NonNegProduct(d, t);
    NonNegProduct(d, u);
    assert d * t + d * u == d;
  }

  /** Scaling a positive number by a factor below 1 makes it smaller. */
  lemma ScaleBelow(d: real, t: real)
    requires 0.0 < d && t < 1.0
    ensures d * t < d
  {
    var u := 1.0 - t;
    PositiveProduct(d, u);
    assert d * t + d * u == d;
  }

  /** `lerp(a, b, t)`: for `t` in [0, 1] the result lies between `a` and `b`. */
  function Lerp(a: real, b: real, t: real): (r: real)
    ensures a <= b && 0.0 <= t <= 1.0 ==> a <= r <= b
  {
    var d := b - a;
    if a <= b && 0.0 <= t <= 1.0 then
      ScaleWithin(d, t);
      a + d * t
    else
      a + d * t
  }

  /** `lerp` meets `a` at `t = 0` and `b` at `t = 1`. */
  lemma LerpEnds(a: real, b: real)
    ensures Lerp(a, b, 0.0) == a && Lerp(a, b, 1.0) == b
  {
  }

  /** `clamp(v, lo, hi)`, i.e. `Math.max(lo, Math.min(hi, v))`. */
  function Clamp(v: real, lo: real, hi: real): (r: real)
    ensures lo <= hi ==> lo <= r <= hi
    ensures lo <= v <= hi ==> r == v
    ensures v < lo ==> r == lo
    ensures lo <= hi < v ==> r == hi
  {
    Max(lo, Min(hi, v))
  }

  /** `easeInOut(t)`: quadratic ease-in for the first half, ease-out for the second. */
  function EaseInOut(t: real): (r: real)
    ensures 0.0 <= t <= 1.0 ==> 0.0 <= r <= 1.0
  {
    if t < 0.5 then
      assert 0.0 <= t ==> 0.0 <= 2.0 * t * t <= 1.0 by {
        if 0.0 <= t {
          var x := 2.0 * t;
          NonNegProduct(x, t);
          ProductAtMost(x, t, 1.0, 0.5);
        }
      }
      2.0 * t * t
    else
      assert t <= 1.0 ==> 0.0 <= -1.0 + (4.0 - 2.0 * t) * t <= 1.0 by {
        if t <= 1.0 {
          var u := 1.0 - t;
          assert -1.0 + (4.0 - 2.0 * t) * t == 1.0 - 2.0 * (u * u);
          NonNegProduct(u, u);
          ProductAtMost(u, u, 0.5, 0.5);
        }
      }
      -1.0 + (4.0 - 2.0 * t) * t
  }

  /** The second half written around its end point: `1 - 2(1 - t)^2`. */
  lemma EaseSecondHalf(t: real)
    requires 0.5 <= t
    ensures EaseInOut(t) == 1.0 - 2.0 * Square(1.0 - t)
  {
    var u := 1.0 - t;
    assert -1.0 + (4.0 - 2.0 * t) * t == 1.0 - 2.0 * (u * u);
  }

  /** The curve passes through (0, 0), (0.5, 0.5) and (1, 1). */
  lemma EaseFixedPoints()
    ensures EaseInOut(0.0) == 0.0 && EaseInOut(0.5) == 0.5 && EaseInOut(1.0) == 1.0
  {
  }

  /** On [0, 0.5] the curve stays at or below one half. */
  lemma EaseAtMostHalf(t: real)
    requires 0.0 <= t <= 0.5
    ensures EaseInOut(t) <= 0.5
  {
    if t < 0.5 {
      var x := 2.0 * t;
      ProductAtMost(x, t, 1.0, 0.5);
    } else {
      EaseFixedPoints();
    }
  }

  lemma EaseFirstHalfMonotone(a: real, b: real)
    requires 0.0 <= a <= b <= 0.5
    ensures EaseInOut(a) <= EaseInOut(b)
  {
    if b < 0.5 {
      var x, y := 2.0 * a, 2.0 * b;
      ProductAtMost(x, a, y, b);
    } else {
      EaseAtMostHalf(a);
      EaseFixedPoints();
    }
  }

  /** The curve is point-symmetric about (0.5, 0.5): easing out mirrors easing in. */
  lemma EaseSymmetric(t: real)
    ensures EaseInOut(1.0 - t) == 1.0 - EaseInOut(t)
  {
    if t < 0.5 {
      EaseSecondHalf(1.0 - t);
      assert 1.0 - (1.0 - t) == t;
    } else if t > 0.5 {
      EaseSecondHalf(t);
    }
  }

  /** On [0, 1] the curve never decreases. */
  lemma EaseMonotone(a: real, b: real)
    requires 0.0 <= a <= b <= 1.0
    ensures EaseInOut(a) <= EaseInOut(b)
  {
    if b <= 0.5 {
      EaseFirstHalfMonotone(a, b);
    } else if a >= 0.5 {
      EaseSymmetric(a);
      EaseSymmetric(b);
      EaseFirstHalfMonotone(1.0 - b, 1.0 - a);
    } else {
      EaseAtMostHalf(a);
      EaseSymmetric(b);
      EaseAtMostHalf(1.0 - b);
    }
  }

  /** The curve reaches 1 only at the end of [0, 1]. */
  lemma EaseBelowOne(t: real)
    requires 0.0 <= t < 1.0
    ensures EaseInOut(t) < 1.0
  {
    if t < 0.5 {
      EaseAtMostHalf(t);
    } else {
      EaseSecondHalf(t);
      SquarePositive(1.0 - t);
    }
  }
}
