/**
 * Scalar helpers shared by every layer: the three.js `MathUtils.lerp` and
 * `MathUtils.clamp` used by the frame callbacks, JavaScript's `Math.abs` and
 * `Math.min`, the GLSL `mod`, and the fractional part used by the photo
 * layer's hash.  Everything is over `real`; floating-point rounding is not
 * modelled.
 */
module Numerics {

  /** JavaScript's `Math.PI`, written as its shortest decimal. */
  const PI: real := 3.141592653589793

  function Abs(x: real): (r: real)
    ensures r >= 0.0
    ensures r == x || r == -x
  {
    if x < 0.0 then -x else x
  }

  function Min(a: real, b: real): (r: real)
    ensures r <= a && r <= b
    ensures r == a || r == b
  {
    if a <= b then a else b
  }

  function Max(a: real, b: real): (r: real)
    ensures r >= a && r >= b
    ensures r == a || r == b
  {
    if a >= b then a else b
  }

  /** `THREE.MathUtils.lerp(x, y, t)`, which computes `(1 - t) * x + t * y`. */
  function Lerp(x: real, y: real, t: real): real
  {
    (1.0 - t) * x + t * y
  }

  /** `THREE.MathUtils.clamp(v, lo, hi)`, which computes `max(lo, min(hi, v))`. */
  function Clamp(v: real, lo: real, hi: real): (r: real)
    ensures lo <= hi ==> lo <= r <= hi
    ensures lo <= v <= hi ==> r == v
    ensures lo <= hi && v > hi ==> r == hi
    ensures v < lo ==> r == lo
  {
    Max(lo, Min(hi, v))
  }

  /** x to the power n, for the decay arguments. */
  function Pow(x: real, n: nat): real
  {
    if n == 0 then 1.0 else x * Pow(x, n - 1)
  }

  /** `x - Math.floor(x)`. */
  function Fract(x: real): (r: real)
    ensures 0.0 <= r < 1.0
  {
    x - x.Floor as real
  }

  /** GLSL `mod(x, y)`, defined as `x - y * floor(x / y)`. */
  function GlslMod(x: real, y: real): (r: real)
    requires y > 0.0
    ensures 0.0 <= r < y
  {
    var q := x / y;
    var f := q - q.Floor as real;
    assert x - y * (q.Floor as real) == y * f;
    MulNonNeg(y, f);
    MulLess(y, f, 1.0);
    x - y * (q.Floor as real)
  }

  // ---------------------------------------------------------------------
  // Small facts about products that the solver does not combine on its own
  // ---------------------------------------------------------------------

  lemma MulNonNeg(a: real, b: real)
    requires a >= 0.0 && b >= 0.0
    ensures a * b >= 0.0
  {
  }

  lemma SquareNonNeg(a: real)
    ensures a * a >= 0.0
  {
    if a < 0.0 {
      MulNonNeg(-a, -a);
    }
  }

  lemma MulAtMost(a: real, b: real, c: real)
    requires a >= 0.0 && b <= c
    ensures a * b <= a * c
  {
  }

  lemma MulAssoc(a: real, b: real, c: real)
    ensures a * (b * c) == (a * b) * c
  {
  }

  /** A bound scaled by a non-negative factor: from `a <= k b` and `b <= c` follows `a <= k c`. */
  lemma ScaleBound(k: real, a: real, b: real, c: real)
    requires k >= 0.0 && a <= k * b && b <= c
    ensures a <= k * c
  {
    MulAtMost(k, b, c);
  }

  /** `|w| <= b` scaled by a non-negative factor. */
  lemma AbsMulBound(w: real, b: real, d: real)
    requires Abs(w) <= b && d >= 0.0
    ensures Abs(w * d) <= b * d
  {
    if w >= 0.0 {
      MulAtMost(d, w, b);
      MulNonNeg(w, d);
    } else {
      MulAtMost(d, -w, b);
      MulNonNeg(-w, d);
    }
  }

  /** Products of values in non-negative intervals lie between the products of the end points. */
  lemma MulBounds(a: real, b: real, alo: real, ahi: real, blo: real, bhi: real)
    requires 0.0 <= alo <= a <= ahi && 0.0 <= blo <= b <= bhi
    ensures alo * blo <= a * b <= ahi * bhi
  {
    MulAtMost(alo, blo, b);
    MulAtMost(b, alo, a);
    MulAtMost(a, b, bhi);
    MulAtMost(bhi, a, ahi);
  }

  lemma AbsMul(a: real, b: real)
    ensures Abs(a * b) == Abs(a) * Abs(b)
  {
    if a < 0.0 && b >= 0.0 {
      assert a * b == -((-a) * b);
      MulNonNeg(-a, b);
    } else if a >= 0.0 && b < 0.0 {
      assert a * b == -(a * (-b));
      MulNonNeg(a, -b);
    } else if a < 0.0 && b < 0.0 {
      assert a * b == (-a) * (-b);
      MulNonNeg(-a, -b);
    } else {
      MulNonNeg(a, b);
    }
  }

  lemma MulLess(a: real, b: real, c: real)
    requires a > 0.0 && b < c
    ensures a * b < a * c
  {
  }

  /** A factor in [lo, hi) applied to a positive quantity. */
  lemma ScaledWithin(f: real, b: real, lo: real, hi: real)
    requires b > 0.0 && lo <= f < hi
    ensures lo * b <= f * b < hi * b
  {
    MulAtMost(b, lo, f);
    MulLess(b, f, hi);
  }

  // ---------------------------------------------------------------------
  // Interpolation facts
  // ---------------------------------------------------------------------

  /** The distance to the target after one lerp step is the old distance scaled by (1 - t). */
  lemma LerpGap(x: real, y: real, t: real)
    ensures Lerp(x, y, t) - y == (1.0 - t) * (x - y)
    ensures 0.0 <= t <= 1.0 ==> Abs(Lerp(x, y, t) - y) == (1.0 - t) * Abs(x - y)
  {
    assert Lerp(x, y, t) - y == (1.0 - t) * (x - y);
    if 0.0 <= t <= 1.0 {
      if x - y < 0.0 {
        MulNonNeg(1.0 - t, y - x);
        assert (1.0 - t) * (y - x) == -((1.0 - t) * (x - y));
      } else {
        MulNonNeg(1.0 - t, x - y);
      }
    }
  }

  /** n lerp steps towards the same target with the same factor. */
  function LerpIter(x: real, y: real, t: real, n: nat): real
  {
    if n == 0 then x else Lerp(LerpIter(x, y, t, n - 1), y, t)
  }

  /** After n steps the signed gap to the target is `(1 - t)^n` times the initial gap. */
  lemma {:induction false} LerpIterGap(x: real, y: real, t: real, n: nat)
    ensures LerpIter(x, y, t, n) - y == Pow(1.0 - t, n) * (x - y)
  {
    if n > 0 {
      var prev := LerpIter(x, y, t, n - 1);
      LerpIterGap(x, y, t, n - 1);
      LerpGap(prev, y, t);
      MulAssoc(1.0 - t, Pow(1.0 - t, n - 1), x - y);
    }
  }

  /** With a factor in [0, 1] a lerp lands between its end points (no overshoot). */
  lemma LerpBetween(x: real, y: real, t: real)
    requires 0.0 <= t <= 1.0
    ensures Min(x, y) <= Lerp(x, y, t) <= Max(x, y)
    ensures x <= y ==> x <= Lerp(x, y, t) <= y
    ensures y <= x ==> y <= Lerp(x, y, t) <= x
  {
    assert Lerp(x, y, t) == x + (y - x) * t;
    if x <= y {
      MulNonNeg(y - x, t);
      MulAtMost(y - x, t, 1.0);
    } else {
      MulNonNeg(x - y, t);
      MulAtMost(x - y, t, 1.0);
    }
  }

  /** A lerp step with a factor in [0, 1] keeps a value inside any interval that holds both ends. */
  lemma LerpInInterval(x: real, y: real, t: real, lo: real, hi: real)
    requires 0.0 <= t <= 1.0
    requires lo <= x <= hi && lo <= y <= hi
    ensures lo <= Lerp(x, y, t) <= hi
  {
    LerpBetween(x, y, t);
  }

  lemma PowUnitInterval(x: real, n: nat)
    requires 0.0 <= x <= 1.0
    ensures 0.0 <= Pow(x, n) <= 1.0
  {
    if n > 0 {
      PowUnitInterval(x, n - 1);
      assert 0.0 <= x * Pow(x, n - 1) <= Pow(x, n - 1);
    }
  }

  lemma {:induction false} PowAdd(x: real, a: nat, b: nat)
    ensures Pow(x, a + b) == Pow(x, a) * Pow(x, b)
  {
    if a > 0 {
      PowAdd(x, a - 1, b);
      assert Pow(x, a + b) == x * Pow(x, a - 1 + b);
      assert x * (Pow(x, a - 1) * Pow(x, b)) == (x * Pow(x, a - 1)) * Pow(x, b);
    }
  }

  /** Powers of a factor in [0, 1] do not increase with the exponent. */
  lemma {:induction false} PowAntitone(x: real, m: nat, n: nat)
    requires 0.0 <= x <= 1.0
    requires m <= n
    ensures Pow(x, n) <= Pow(x, m)
  {
    if m < n {
      PowAntitone(x, m, n - 1);
      PowUnitInterval(x, n - 1);
      assert x * Pow(x, n - 1) <= Pow(x, n - 1);
    }
  }
}
