/** Point<D> of geometry.h: a tuple of D reals with value semantics.
    The value of a point is a sequence of length D; the C++ operators, each a
    loop over the components from the last down to the first, are the methods
    below, and each is proved to compute the specification function that the
    rest of the model uses. */
module Geometry {
  import opened Numerics

  /** Point3D and Point4D: the dimension is part of the type. */
  type Point3 = p: seq<real> | |p| == 3 witness [0.0, 0.0, 0.0]
  type Point4 = p: seq<real> | |p| == 4 witness [0.0, 0.0, 0.0, 0.0]

  // Specification functions

  function Zero(d: nat): (z: seq<real>)
    ensures |z| == d
  {
    seq(d, _ => 0.0)
  }

  /** The dot product: the sum of the component products. */
  function Dot(a: seq<real>, b: seq<real>): real
    requires |a| == |b|
  {
    if |a| == 0 then 0.0 else a[0] * b[0] + Dot(a[1..], b[1..])
  }

  function Add(a: seq<real>, b: seq<real>): (r: seq<real>)
    requires |a| == |b|
    ensures |r| == |a|
  {
    seq(|a|, i requires 0 <= i < |a| => a[i] + b[i])
  }

  function Sub(a: seq<real>, b: seq<real>): (r: seq<real>)
    requires |a| == |b|
    ensures |r| == |a|
  {
    seq(|a|, i requires 0 <= i < |a| => a[i] - b[i])
  }

  function Scale(a: seq<real>, s: real): (r: seq<real>)
    ensures |r| == |a|
  {
    seq(|a|, i requires 0 <= i < |a| => a[i] * s)
  }

  /** Unary minus is scaling by -1. */
  function Neg(a: seq<real>): (r: seq<real>)
    ensures |r| == |a|
  {
    Scale(a, -1.0)
  }

  function Norm(m: Math, a: seq<real>): real {
    m.sqrt(Dot(a, a))
  }

  /** The value normalize(l) leaves behind: the point scaled to length l.
      For a point of norm zero the source divides by zero (a NaN result under
      IEEE arithmetic); the model leaves such a point unchanged. */
  function Normalized(m: Math, a: seq<real>, l: real): (r: seq<real>)
    ensures |r| == |a|
  {
    var n := Norm(m, a);
    if n == 0.0 then a else Scale(a, l / n)
  }

  // The operators of geometry.h

  /** Point(): every component is cleared, from the last down. */
  method Origin(d: nat) returns (p: seq<real>)
    ensures p == Zero(d)
  {
    var data := new real[d];
    var i := d;
    while i > 0
      invariant 0 <= i <= d
      invariant forall k :: i <= k < d ==> data[k] == 0.0
    {
      i := i - 1;
      data[i] := 0.0;
    }
    p := data[..];
  }

  /** Point(list): the components are copied from the initializer list in order. */
  method FromList(list: seq<real>) returns (p: seq<real>)
    ensures p == list
  {
    var data := new real[|list|];
    var i := 0;
    while i < |list|
      invariant 0 <= i <= |list|
      invariant forall k :: 0 <= k < i ==> data[k] == list[k]
    {
      data[i] := list[i];
      i := i + 1;
    }
    p := data[..];
  }

  /** operator*(Point, Point): accumulates the component products. */
  method DotProduct(lhs: seq<real>, rhs: seq<real>) returns (rez: real)
    requires |lhs| == |rhs|
    ensures rez == Dot(lhs, rhs)
  {
    rez := 0.0;
    var i := |lhs|;
    while i > 0
      invariant 0 <= i <= |lhs|
      invariant rez == Dot(lhs[i..], rhs[i..])
    {
      i := i - 1;
      assert lhs[i..][1..] == lhs[i + 1..] && rhs[i..][1..] == rhs[i + 1..];
      rez := rez + lhs[i] * rhs[i];
    }
    assert lhs[0..] == lhs && rhs[0..] == rhs;
  }

  /** operator+: adds rhs into a copy of lhs. */
  method Plus(lhs: seq<real>, rhs: seq<real>) returns (r: seq<real>)
    requires |lhs| == |rhs|
    ensures r == Add(lhs, rhs)
  {
    r := lhs;
    var i := |lhs|;
    while i > 0
      invariant 0 <= i <= |lhs| == |r|
      invariant forall k :: 0 <= k < i ==> r[k] == lhs[k]
      invariant forall k :: i <= k < |lhs| ==> r[k] == lhs[k] + rhs[k]
    {
      i := i - 1;
      r := r[i := r[i] + rhs[i]];
    }
  }

  /** Binary operator-: subtracts rhs from a copy of lhs. */
  method Minus(lhs: seq<real>, rhs: seq<real>) returns (r: seq<real>)
    requires |lhs| == |rhs|
    ensures r == Sub(lhs, rhs)
  {
    r := lhs;
    var i := |lhs|;
    while i > 0
      invariant 0 <= i <= |lhs| == |r|
      invariant forall k :: 0 <= k < i ==> r[k] == lhs[k]
      invariant forall k :: i <= k < |lhs| ==> r[k] == lhs[k] - rhs[k]
    {
      i := i - 1;
      r := r[i := r[i] - rhs[i]];
    }
  }

  /** operator*(Point, scalar): fills a default-constructed point with the scaled components. */
  method Times(lhs: seq<real>, rhs: real) returns (rez: seq<real>)
    ensures rez == Scale(lhs, rhs)
  {
    rez := Origin(|lhs|);
    var i := |lhs|;
    while i > 0
      invariant 0 <= i <= |lhs| == |rez|
      invariant forall k :: i <= k < |lhs| ==> rez[k] == lhs[k] * rhs
    {
      i := i - 1;
      rez := rez[i := lhs[i] * rhs];
    }
    assert forall k :: 0 <= k < |lhs| ==> rez[k] == Scale(lhs, rhs)[k];
  }

  /** Unary operator-: lhs * (-1). */
  method Negate(lhs: seq<real>) returns (r: seq<real>)
    ensures r == Neg(lhs)
  {
    r := Times(lhs, -1.0);
  }

  /** norm(): the square root of the accumulated sum of squares. */
  method ComputeNorm(m: Math, p: seq<real>) returns (n: real)
    ensures n == Norm(m, p)
  {
    var rez := 0.0;
    var i := |p|;
    while i > 0
      invariant 0 <= i <= |p|
      invariant rez == Dot(p[i..], p[i..])
    {
      i := i - 1;
      assert p[i..][1..] == p[i + 1..];
      rez := rez + p[i] * p[i];
    }
    assert p[0..] == p;
    n := m.sqrt(rez);
  }

  /** normalize(l): *this = *this * (l / norm()), returning the new value. */
  method Normalize(m: Math, p: seq<real>, l: real) returns (q: seq<real>)
    ensures q == Normalized(m, p, l)
  {
    var n := ComputeNorm(m, p);
    if n == 0.0 {
      q := p;
    } else {
      q := Times(p, l / n);
    }
  }

  // Algebra of the operators

  lemma {:induction false} DotComm(a: seq<real>, b: seq<real>)
    requires |a| == |b|
    ensures Dot(a, b) == Dot(b, a)
  {
    if |a| > 0 {
      DotComm(a[1..], b[1..]);
    }
  }

  lemma {:induction false} DotScaleLeft(a: seq<real>, s: real, b: seq<real>)
    requires |a| == |b|
    ensures Dot(Scale(a, s), b) == s * Dot(a, b)
  {
    if |a| > 0 {
      var t := Scale(a, s);
      var x, y, r := a[0], b[0], Dot(a[1..], b[1..]);
      assert Dot(t, b) == (x * s) * y + s * r by {
        assert forall k :: 0 <= k < |a| - 1 ==> t[1..][k] == Scale(a[1..], s)[k];
        assert t[1..] == Scale(a[1..], s);
        DotScaleLeft(a[1..], s, b[1..]);
      }
      FactorOut(x, s, y, r);
    }
  }

  lemma {:induction false} DotScaleRight(a: seq<real>, b: seq<real>, s: real)
    requires |a| == |b|
    ensures Dot(a, Scale(b, s)) == s * Dot(a, b)
  {
    if |a| > 0 {
      var t := Scale(b, s);
      var x, y, r := b[0], a[0], Dot(a[1..], b[1..]);
      assert Dot(a, t) == y * (x * s) + s * r by {
        assert forall k :: 0 <= k < |b| - 1 ==> t[1..][k] == Scale(b[1..], s)[k];
        assert t[1..] == Scale(b[1..], s);
        DotScaleRight(a[1..], b[1..], s);
      }
      FactorOutRight(y, x, s, r);
    }
  }

  /** Scaling a point by s scales its dot product with itself by s^2. */
  lemma DotScaleSelf(a: seq<real>, s: real)
    ensures Dot(Scale(a, s), Scale(a, s)) == Square(s) * Dot(a, a)
  {
    DotScaleLeft(a, s, Scale(a, s));
    DotScaleRight(a, a, s);
    SquareTimes(s, Dot(a, Scale(a, s)), Dot(a, a));
  }

  /** A scaled unit vector has the squared scale as its squared length. */
  lemma DotScaleUnit(a: seq<real>, s: real)
    requires Dot(a, a) == 1.0
    ensures Dot(Scale(a, s), Scale(a, s)) == Square(s)
  {
    DotScaleSelf(a, s);
  }

  lemma {:induction false} DotAddLeft(a: seq<real>, b: seq<real>, c: seq<real>)
    requires |a| == |b| == |c|
    ensures Dot(Add(a, b), c) == Dot(a, c) + Dot(b, c)
  {
    if |a| > 0 {
      assert Add(a, b)[1..] == Add(a[1..], b[1..]);
      DotAddLeft(a[1..], b[1..], c[1..]);
    }
  }

  lemma {:induction false} DotSubLeft(a: seq<real>, b: seq<real>, c: seq<real>)
    requires |a| == |b| == |c|
    ensures Dot(Sub(a, b), c) == Dot(a, c) - Dot(b, c)
  {
    if |a| > 0 {
      assert Sub(a, b)[1..] == Sub(a[1..], b[1..]);
      DotSubLeft(a[1..], b[1..], c[1..]);
    }
  }

  lemma DotAddRight(a: seq<real>, b: seq<real>, c: seq<real>)
    requires |a| == |b| == |c|
    ensures Dot(a, Add(b, c)) == Dot(a, b) + Dot(a, c)
  {
    DotComm(a, Add(b, c));
    DotAddLeft(b, c, a);
    DotComm(a, b);
    DotComm(a, c);
  }

  lemma DotSubRight(a: seq<real>, b: seq<real>, c: seq<real>)
    requires |a| == |b| == |c|
    ensures Dot(a, Sub(b, c)) == Dot(a, b) - Dot(a, c)
  {
    DotComm(a, Sub(b, c));
    DotSubLeft(b, c, a);
    DotComm(a, b);
    DotComm(a, c);
  }

  lemma DotNegRight(a: seq<real>, b: seq<real>)
    requires |a| == |b|
    ensures Dot(a, Neg(b)) == -Dot(a, b)
  {
    DotScaleRight(a, b, -1.0);
  }

  /** The dot product of two 3-vectors written out. */
  lemma Dot3(a: seq<real>, b: seq<real>)
    requires |a| == |b| == 3
    ensures Dot(a, b) == a[0] * b[0] + a[1] * b[1] + a[2] * b[2]
  {
    assert a[1..][1..] == a[2..] && b[1..][1..] == b[2..];
    assert a[2..][1..] == [] && b[2..][1..] == [];
    assert Dot(a[2..], b[2..]) == a[2] * b[2];
    assert Dot(a[1..], b[1..]) == a[1] * b[1] + Dot(a[2..], b[2..]);
  }

  lemma {:induction false} DotSelfNonNegative(a: seq<real>)
    ensures 0.0 <= Dot(a, a)
  {
    if |a| > 0 {
      DotSelfNonNegative(a[1..]);
      SquareNonNegative(a[0]);
    }
  }

  /** Only the zero vector is orthogonal to itself. */
  lemma {:induction false} DotSelfZero(a: seq<real>)
    ensures Dot(a, a) == 0.0 <==> a == Zero(|a|)
  {
    if |a| > 0 {
      var r := Dot(a[1..], a[1..]);
      DotSelfNonNegative(a[1..]);
      DotSelfZero(a[1..]);
      if Dot(a, a) == 0.0 {
        SquareSumZero(a[0], r);
      }
      assert Dot(a, a) == 0.0 <==> a[0] == 0.0 && a[1..] == Zero(|a| - 1);
      assert a == [a[0]] + a[1..];
      assert Zero(|a|) == [0.0] + Zero(|a| - 1);
    }
  }

  /** norm() is non-negative and squares to the dot product of the point with itself. */
  lemma NormSquared(m: Math, a: seq<real>)
    requires Lawful(m)
    ensures 0.0 <= Norm(m, a)
    ensures Norm(m, a) * Norm(m, a) == Dot(a, a)
  {
    DotSelfNonNegative(a);
  }

  /** norm() vanishes exactly on the zero vector, so Normalized changes every other point. */
  lemma NormZeroIffOrigin(m: Math, a: seq<real>)
    requires Lawful(m)
    ensures Norm(m, a) == 0.0 <==> a == Zero(|a|)
  {
    DotSelfNonNegative(a);
    SqrtZero(m, Dot(a, a));
    DotSelfZero(a);
  }

  /** After normalize(l) the norm is |l|: 1 for the default argument. */
  lemma NormalizedLength(m: Math, a: seq<real>, l: real)
    requires Lawful(m)
    requires Norm(m, a) != 0.0
    ensures Norm(m, Normalized(m, a, l)) == Abs(l)
  {
    var n := Norm(m, a);
    var c := l / n;
    assert Dot(Scale(a, c), Scale(a, c)) == Square(c) * Square(n) by {
      NormSquared(m, a);
      DotScaleSelf(a, c);
    }
    assert Square(c) * Square(n) == l * l by {
      DivMul(l, n);
      SquareProduct(c, n, l);
    }
    SqrtOfSquare(m, l);
  }

  /** A normalised non-zero point is a unit vector. */
  lemma NormalizedUnit(m: Math, a: seq<real>)
    requires Lawful(m)
    requires Norm(m, a) != 0.0
    ensures Dot(Normalized(m, a, 1.0), Normalized(m, a, 1.0)) == 1.0
  {
    NormalizedLength(m, a, 1.0);
    NormSquared(m, Normalized(m, a, 1.0));
  }

  /** + and - are component-wise inverses. */
  lemma AddSubCancel(a: seq<real>, b: seq<real>)
    requires |a| == |b|
    ensures Sub(Add(a, b), b) == a
  {
  }

  /** Unary minus is an involution. */
  lemma NegNeg(a: seq<real>)
    ensures Neg(Neg(a)) == a
  {
  }
}
