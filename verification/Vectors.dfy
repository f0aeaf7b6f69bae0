/**
 Dense real vectors: the arithmetic of lbfgs.hpp over exact reals.
 The functions say what each in-place helper computes; the methods do it on buffers.
 */
module Vectors {
  type Vec = seq<real>

  /** A product as a named term, so that equal factors give equal products. */
  function Mul(a: real, b: real): real { a * b }

  lemma MulAxpy(a: real, c: real, b: real, z: real)
    ensures Mul(a + Mul(c, b), z) == Mul(a, z) + Mul(c, Mul(b, z))
    ensures Mul(Mul(b, c), z) == Mul(c, Mul(b, z))
  {
    assert (a + c * b) * z == a * z + c * (b * z);
    assert (b * c) * z == c * (b * z);
  }

  lemma MulAdd(c: real, a: real, b: real)
    ensures Mul(c, a + b) == Mul(c, a) + Mul(c, b)
  {
  }

  lemma QuotientTimes(a: real, b: real)
    requires b != 0.0
    ensures Mul(a / b, b) == a
  {
  }

  lemma QuotientPositive(a: real, b: real)
    requires a > 0.0 && b > 0.0
    ensures a / b > 0.0
  {
  }

  /** Sum of products, accumulated in index order. */
  function Dot(x: Vec, y: Vec): real
    requires |x| == |y|
    decreases |x|
  {
    if |x| == 0 then 0.0
    else Dot(x[..|x| - 1], y[..|y| - 1]) + Mul(x[|x| - 1], y[|y| - 1])
  }

  /** y + c * x */
  function Axpy(y: Vec, c: real, x: Vec): (z: Vec)
    requires |x| == |y|
    ensures |z| == |y|
    ensures forall i | 0 <= i < |z| :: z[i] == y[i] + Mul(c, x[i])
  {
    seq(|y|, i requires 0 <= i < |y| => y[i] + Mul(c, x[i]))
  }

  function Scale(c: real, x: Vec): (z: Vec)
    ensures |z| == |x|
    ensures forall i | 0 <= i < |z| :: z[i] == Mul(x[i], c)
  {
    seq(|x|, i requires 0 <= i < |x| => Mul(x[i], c))
  }

  function Neg(x: Vec): (z: Vec)
    ensures |z| == |x|
    ensures forall i | 0 <= i < |z| :: z[i] == -x[i]
  {
    seq(|x|, i requires 0 <= i < |x| => -x[i])
  }

  function Sub(x: Vec, y: Vec): (z: Vec)
    requires |x| == |y|
    ensures |z| == |x|
    ensures forall i | 0 <= i < |z| :: z[i] == x[i] - y[i]
  {
    seq(|x|, i requires 0 <= i < |x| => x[i] - y[i])
  }

  ghost predicate IsZero(x: Vec) {
    forall i | 0 <= i < |x| :: x[i] == 0.0
  }

  lemma {:induction false} DotComm(x: Vec, y: Vec)
    requires |x| == |y|
    ensures Dot(x, y) == Dot(y, x)
    decreases |x|
  {
    if |x| > 0 {
      DotComm(x[..|x| - 1], y[..|y| - 1]);
    }
  }

  lemma {:induction false} DotAxpy(y: Vec, c: real, x: Vec, z: Vec)
    requires |x| == |y| == |z|
    ensures Dot(Axpy(y, c, x), z) == Dot(y, z) + Mul(c, Dot(x, z))
    decreases |x|
  {
    if |x| > 0 {
      var k := |x| - 1;
      DotAxpy(y[..k], c, x[..k], z[..k]);
      assert Axpy(y, c, x)[..k] == Axpy(y[..k], c, x[..k]);
      MulAxpy(y[k], c, x[k], z[k]);
      MulAdd(c, Dot(x[..k], z[..k]), Mul(x[k], z[k]));
    }
  }

  lemma {:induction false} DotScale(c: real, x: Vec, z: Vec)
    requires |x| == |z|
    ensures Dot(Scale(c, x), z) == Mul(c, Dot(x, z))
    decreases |x|
  {
    if |x| > 0 {
      var k := |x| - 1;
      DotScale(c, x[..k], z[..k]);
      assert Scale(c, x)[..k] == Scale(c, x[..k]);
      MulAxpy(0.0, c, x[k], z[k]);
      MulAdd(c, Dot(x[..k], z[..k]), Mul(x[k], z[k]));
    }
  }

  lemma DotNeg(x: Vec, z: Vec)
    requires |x| == |z|
    ensures Dot(Neg(x), z) == -Dot(x, z)
  {
    assert Neg(x) == Scale(-1.0, x);
    DotScale(-1.0, x, z);
  }

  lemma DotSub(x: Vec, y: Vec, z: Vec)
    requires |x| == |y| == |z|
    ensures Dot(Sub(x, y), z) == Dot(x, z) - Dot(y, z)
  {
    assert Sub(x, y) == Axpy(x, -1.0, y);
    DotAxpy(x, -1.0, y, z);
  }

  lemma SquareSign(a: real)
    ensures a == 0.0 ==> Mul(a, a) == 0.0
    ensures a != 0.0 ==> Mul(a, a) > 0.0
  {
    if a < 0.0 {
      ProductPositive(-a, -a);
      assert Mul(a, a) == Mul(-a, -a);
    } else if a > 0.0 {
      ProductPositive(a, a);
    }
  }

  lemma ProductPositive(a: real, b: real)
    requires a > 0.0 && b > 0.0
    ensures Mul(a, b) > 0.0
  {
  }

  /** The squared norm is non-negative and vanishes exactly on the zero vector. */
  lemma {:induction false} DotSelf(x: Vec)
    ensures Dot(x, x) >= 0.0
    ensures Dot(x, x) == 0.0 <==> IsZero(x)
    decreases |x|
  {
    if |x| > 0 {
      var k := |x| - 1;
      DotSelf(x[..k]);
      SquareSign(x[k]);
      assert IsZero(x) <==> IsZero(x[..k]) && x[k] == 0.0;
    }
  }

  lemma {:induction false} DotZero(x: Vec, z: Vec)
    requires |x| == |z| && IsZero(x)
    ensures Dot(x, z) == 0.0
    decreases |x|
  {
    if |x| > 0 {
      DotZero(x[..|x| - 1], z[..|z| - 1]);
    }
  }

  // ---------- the helpers of lbfgs.hpp, on buffers ----------

  method VecCpy(y: array<real>, x: Vec)
    requires y.Length == |x|
    modifies y
    ensures y[..] == x
  {
    for i := 0 to |x|
      invariant forall k | 0 <= k < i :: y[k] == x[k]
    {
      y[i] := x[i];
    }
  }

  method VecNcpy(y: array<real>, x: Vec)
    requires y.Length == |x|
    modifies y
    ensures y[..] == Neg(x)
  {
    for i := 0 to |x|
      invariant forall k | 0 <= k < i :: y[k] == -x[k]
    {
      y[i] := -x[i];
    }
  }

  method VecAdd(y: array<real>, x: Vec, c: real)
    requires y.Length == |x|
    modifies y
    ensures y[..] == Axpy(old(y[..]), c, x)
  {
    for i := 0 to |x|
      invariant forall k | 0 <= k < i :: y[k] == old(y[k]) + Mul(c, x[k])
      invariant forall k | i <= k < |x| :: y[k] == old(y[k])
    {
      y[i] := y[i] + c * x[i];
    }
  }

  method VecScale(y: array<real>, c: real)
    modifies y
    ensures y[..] == Scale(c, old(y[..]))
  {
    for i := 0 to y.Length
      invariant forall k | 0 <= k < i :: y[k] == Mul(old(y[k]), c)
      invariant forall k | i <= k < y.Length :: y[k] == old(y[k])
    {
      y[i] := y[i] * c;
    }
  }

  method VecDiff(x: Vec, y: Vec) returns (z: Vec)
    requires |x| == |y|
    ensures z == Sub(x, y)
  {
    z := [];
    for i := 0 to |x|
      invariant |z| == i
      invariant forall k | 0 <= k < i :: z[k] == x[k] - y[k]
    {
      z := z + [x[i] - y[i]];
    }
  }

  method VecDot(x: Vec, y: Vec) returns (s: real)
    requires |x| == |y|
    ensures s == Dot(x, y)
  {
    s := 0.0;
    for i := 0 to |x|
      invariant s == Dot(x[..i], y[..i])
    {
      s := s + x[i] * y[i];
      assert x[..i + 1][..i] == x[..i] && y[..i + 1][..i] == y[..i];
    }
    assert x[..|x|] == x && y[..|y|] == y;
  }
}
