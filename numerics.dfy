/** The floating-point library functions the renderer calls (std::sqrt,
    std::pow, std::tan). They are not computed here: the model is stated for
    every triple of functions that obeys the few laws in Lawful, and `double`
    is modelled by `real` throughout. */
module Numerics {

  /** The three <cmath> functions the renderer uses, as parameters. */
  datatype Math = Math(sqrt: real -> real, pow: (real, real) -> real, tan: real -> real)

  /** The laws the proofs rely on: a square root is a non-negative number whose
      square is its argument, and a power of a non-negative base is non-negative. */
  ghost predicate Lawful(m: Math) {
    (forall x: real :: 0.0 <= x ==> 0.0 <= m.sqrt(x) && m.sqrt(x) * m.sqrt(x) == x)
    && (forall x: real, e: real :: 0.0 <= x ==> 0.0 <= m.pow(x, e))
  }

  function Square(x: real): real {
    x * x
  }

  function Abs(x: real): real {
    if x < 0.0 then -x else x
  }

  function Max(a: real, b: real): real {
    if a < b then b else a
  }

  function Min(a: real, b: real): real {
    if b < a then b else a
  }

  // Small facts of real arithmetic, each proved in isolation. A square is
  // always bounded together with a second summand, as in 0 < x * x + r.

  lemma MulPosPlus(x: real, y: real, r: real)
    requires 0.0 < x && 0.0 < y && 0.0 <= r
    ensures 0.0 < x * y + r
  {
  }

  /** A non-zero square plus a non-negative amount is positive. */
  lemma SquareSumPositive(x: real, r: real)
    requires x != 0.0 && 0.0 <= r
    ensures 0.0 < x * x + r
  {
    if x < 0.0 {
      MulPosPlus(-x, -x, r);
    } else {
      MulPosPlus(x, x, r);
    }
  }

  lemma SquareNonNegative(x: real)
    ensures 0.0 <= x * x
  {
    if x != 0.0 {
      SquareSumPositive(x, 0.0);
    }
  }

  /** A square and a non-negative amount add up to zero only when both are zero. */
  lemma SquareSumZero(x: real, r: real)
    requires 0.0 <= r && x * x + r == 0.0
    ensures x == 0.0 && r == 0.0
  {
    if x != 0.0 {
      SquareSumPositive(x, r);
    }
    SquareNonNegative(x);
  }

  /** A ratio of positives whose numerator is the smaller lies in (0, 1]. */
  lemma RatioAtMostOne(a: real, b: real)
    requires 0.0 < a <= b
    ensures 0.0 < a / b <= 1.0
  {
    var q := a / b;
    assert q * b == a;
    if q > 1.0 {
      MulPosPlus(q - 1.0, b, 0.0);
    }
  }

  /** The unit interval is closed under multiplication. */
  lemma UnitProduct(x: real, y: real)
    requires 0.0 <= x <= 1.0 && 0.0 <= y <= 1.0
    ensures 0.0 <= x * y <= 1.0
  {
    if 0.0 < x && 0.0 < y {
      MulPosPlus(x, y, 0.0);
      if y < 1.0 {
        MulPosPlus(x, 1.0 - y, 0.0);
      } else {
        assert x * y == x * 1.0;
      }
    }
  }

  /** s^2 - 2 s t + l == (s - t)^2 + (l - t^2), with s^2 and s t given by name. */
  lemma CompleteSquare(s: real, t: real, ss: real, st: real, l: real)
    requires ss == Square(s) && st == s * t
    ensures ss - 2.0 * st + l == Square(s - t) + (l - t * t)
  {
  }

  /** Pulling a common factor s out of a sum of products. */
  lemma FactorOut(x: real, s: real, y: real, r: real)
    ensures (x * s) * y + s * r == s * (x * y + r)
  {
  }

  lemma FactorOutRight(y: real, x: real, s: real, r: real)
    ensures y * (x * s) + s * r == s * (y * x + r)
  {
  }

  lemma SquareTimes(s: real, x: real, d: real)
    requires x == s * d
    ensures s * x == Square(s) * d
  {
  }

  lemma SquareProduct(a: real, b: real, p: real)
    requires a * b == p
    ensures Square(a) * Square(b) == p * p
  {
    assert Square(a) * Square(b) == (a * b) * (a * b);
  }

  /** A product vanishes exactly when a factor does. */
  lemma ProductZero(a: real, b: real)
    ensures a * b == 0.0 <==> a == 0.0 || b == 0.0
  {
    if a != 0.0 && a * b == 0.0 {
      assert b == (a * b) / a;
    }
  }

  /** Dividing by a non-zero number and multiplying back is the identity. */
  lemma DivMul(x: real, y: real)
    requires y != 0.0
    ensures (x / y) * y == x
  {
  }

  lemma DivSelf(x: real)
    requires x != 0.0
    ensures x / x == 1.0
  {
    assert (x / x) * x == x;
    assert (x / x - 1.0) * x == 0.0;
    ProductZero(x / x - 1.0, x);
  }

  /** The square root of a square is the absolute value. */
  lemma SqrtOfSquare(m: Math, x: real)
    requires Lawful(m)
    ensures m.sqrt(x * x) == Abs(x)
  {
    var y := m.sqrt(x * x);
    assert 0.0 <= x * x;
    assert 0.0 <= y && y * y == x * x;
    var a := Abs(x);
    assert a * a == x * x;
    assert (y - a) * (y + a) == y * y - a * a;
    if y + a == 0.0 {
      assert y == 0.0 && a == 0.0;
    } else {
      assert (y - a) * (y + a) == 0.0;
      assert y - a == (y - a) * (y + a) / (y + a);
    }
  }

  /** A square root is zero exactly at zero. */
  lemma SqrtZero(m: Math, x: real)
    requires Lawful(m) && 0.0 <= x
    ensures m.sqrt(x) == 0.0 <==> x == 0.0
  {
    if x == 0.0 {
      SqrtOfSquare(m, 0.0);
    } else {
      assert m.sqrt(x) * m.sqrt(x) == x;
    }
  }
}
