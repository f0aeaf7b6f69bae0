/**
 B-splines over exact reals (uniform_bspline.cpp): de Boor's triangle, the sum of basis functions it
 computes, the convex hull property, and what a feasible set of control points says about every time.
 */
module Bspline {
  import opened Vectors

  /** Degree p, control points as columns of one dimension, and a knot vector. */
  datatype Spline = Spline(points: seq<Vec>, p: nat, u: seq<real>)

  ghost predicate StrictlyIncreasing(u: seq<real>) {
    forall i, j | 0 <= i < j < |u| :: u[i] < u[j]
  }

  ghost predicate Columns(points: seq<Vec>, dim: nat) {
    forall i | 0 <= i < |points| :: |points[i]| == dim
  }

  ghost predicate WellFormed(s: Spline, dim: nat) {
    && |s.points| > s.p && |s.u| == |s.points| + s.p + 1
    && StrictlyIncreasing(s.u) && Columns(s.points, dim)
  }

  /** (1 - alpha) * a + alpha * b */
  function Lerp(a: Vec, b: Vec, alpha: real): (c: Vec)
    requires |a| == |b|
    ensures |c| == |a|
    ensures forall j | 0 <= j < |c| :: c[j] == Mul(1.0 - alpha, a[j]) + Mul(alpha, b[j])
  {
    seq(|a|, j requires 0 <= j < |a| => Mul(1.0 - alpha, a[j]) + Mul(alpha, b[j]))
  }

  // ---------- evaluation ----------

  /** The parameter clipped to the time span of the spline. */
  function ClipTime(s: Spline, t: real): real
    requires |s.points| > s.p && |s.u| == |s.points| + s.p + 1
  {
    var lo := if s.u[s.p] < t then t else s.u[s.p];
    if s.u[|s.points|] < lo then s.u[|s.points|] else lo
  }

  ghost predicate InSpan(s: Spline, k: nat, x: real) {
    && |s.u| == |s.points| + s.p + 1
    && s.p <= k < |s.points|
    && s.u[k] <= x <= s.u[k + 1]
  }

  /** The first span from k on whose right knot is not left of x. */
  function FindSpan(s: Spline, x: real, k: nat): (span: nat)
    requires |s.u| == |s.points| + s.p + 1 && s.p <= k < |s.points| && x <= s.u[|s.points|]
    requires s.u[k] <= x
    ensures InSpan(s, span, x)
    decreases |s.points| - k
  {
    if s.u[k + 1] >= x then k else FindSpan(s, x, k + 1)
  }

  function Ratio(a: real, b: real): real
    requires b != 0.0
  {
    a / b
  }

  lemma RatioInUnit(a: real, b: real)
    requires 0.0 < b && 0.0 <= a <= b
    ensures 0.0 <= Ratio(a, b) <= 1.0
  {
  }

  /** The weight of row r at entry i, on span k. */
  function Weight(s: Spline, k: nat, x: real, r: nat, i: nat): real
    requires |s.u| == |s.points| + s.p + 1 && s.p <= k < |s.points| && 1 <= r <= i <= s.p
    requires s.u[i + k - s.p] < s.u[i + 1 + k - r]
  {
    Ratio(x - s.u[i + k - s.p], s.u[i + 1 + k - r] - s.u[i + k - s.p])
  }

  /** Entry i of row r of de Boor's triangle on span k. */
  ghost function DeBoor(s: Spline, dim: nat, k: nat, x: real, r: nat, i: nat): (d: Vec)
    requires WellFormed(s, dim) && s.p <= k < |s.points| && r <= i <= s.p
    ensures |d| == dim
    decreases r
  {
    if r == 0 then s.points[k - s.p + i]
    else Lerp(DeBoor(s, dim, k, x, r - 1, i - 1), DeBoor(s, dim, k, x, r - 1, i), Weight(s, k, x, r, i))
  }

  ghost function Evaluate(s: Spline, dim: nat, t: real): (d: Vec)
    requires WellFormed(s, dim)
    ensures |d| == dim
  {
    var x := ClipTime(s, t);
    ClipTimeBounds(s, dim, t);
    DeBoor(s, dim, FindSpan(s, x, s.p), x, s.p, s.p)
  }

  lemma ClipTimeBounds(s: Spline, dim: nat, t: real)
    requires WellFormed(s, dim)
    ensures s.u[s.p] <= ClipTime(s, t) <= s.u[|s.points|]
  {
    assert s.u[s.p] < s.u[|s.points|];
  }

  // ---------- the convex hull property ----------

  lemma LerpBetween(a: real, b: real, alpha: real, lo: real, hi: real)
    requires 0.0 <= alpha <= 1.0 && lo <= a <= hi && lo <= b <= hi
    ensures lo <= Mul(1.0 - alpha, a) + Mul(alpha, b) <= hi
  {
    hide Mul;
    NonNegativeProduct(1.0 - alpha, a - lo);
    NonNegativeProduct(alpha, b - lo);
    NonNegativeProduct(1.0 - alpha, hi - a);
    NonNegativeProduct(alpha, hi - b);
    LerpSlack(alpha, a, b, lo);
    LerpSlack(alpha, a, b, hi);
  }

  lemma NonNegativeProduct(a: real, b: real)
    requires 0.0 <= a && 0.0 <= b
    ensures 0.0 <= Mul(a, b)
  {
  }

  lemma LerpSlack(alpha: real, a: real, b: real, c: real)
    ensures Mul(1.0 - alpha, a - c) + Mul(alpha, b - c) == Mul(1.0 - alpha, a) + Mul(alpha, b) - c
    ensures Mul(1.0 - alpha, c - a) + Mul(alpha, c - b) == c - (Mul(1.0 - alpha, a) + Mul(alpha, b))
  {
  }

  /** Every weight on the span of x lies in [0, 1]. */
  lemma WeightInUnit(s: Spline, dim: nat, k: nat, x: real, r: nat, i: nat)
    requires WellFormed(s, dim) && InSpan(s, k, x) && 1 <= r <= i <= s.p
    ensures s.u[i + k - s.p] < s.u[i + 1 + k - r]
    ensures 0.0 <= Weight(s, k, x, r, i) <= 1.0
  {
    var lo, hi := i + k - s.p, i + 1 + k - r;
    assert lo <= k < k + 1 <= hi;
    assert lo < k ==> s.u[lo] < s.u[k];
    assert k + 1 < hi ==> s.u[k + 1] < s.u[hi];
    RatioInUnit(x - s.u[lo], s.u[hi] - s.u[lo]);
  }

  ghost predicate ActiveWithin(s: Spline, dim: nat, k: nat, j: nat, lo: real, hi: real)
    requires WellFormed(s, dim) && s.p <= k < |s.points| && j < dim
  {
    forall i | k - s.p <= i <= k :: lo <= s.points[i][j] <= hi
  }

  lemma {:induction false} DeBoorWithin(s: Spline, dim: nat, k: nat, x: real, r: nat, i: nat, j: nat, lo: real,
                                        hi: real)
    requires WellFormed(s, dim) && InSpan(s, k, x) && r <= i <= s.p && j < dim
    requires ActiveWithin(s, dim, k, j, lo, hi)
    ensures lo <= DeBoor(s, dim, k, x, r, i)[j] <= hi
    decreases r
  {
    if r > 0 {
      hide Mul;
      DeBoorWithin(s, dim, k, x, r - 1, i - 1, j, lo, hi);
      DeBoorWithin(s, dim, k, x, r - 1, i, j, lo, hi);
      WeightInUnit(s, dim, k, x, r, i);
      LerpBetween(DeBoor(s, dim, k, x, r - 1, i - 1)[j], DeBoor(s, dim, k, x, r - 1, i)[j], Weight(s, k, x, r, i),
                  lo, hi);
    }
  }

  /** The span that an evaluation at t uses. */
  ghost function SpanAt(s: Spline, dim: nat, t: real): (k: nat)
    requires WellFormed(s, dim)
    ensures s.p <= k < |s.points|
  {
    ClipTimeBounds(s, dim, t);
    FindSpan(s, ClipTime(s, t), s.p)
  }

  /** The value at any time lies, per axis, between the bounds of the p + 1 control points active there. */
  lemma EvaluateWithin(s: Spline, dim: nat, t: real, j: nat, lo: real, hi: real)
    requires WellFormed(s, dim) && j < dim && ActiveWithin(s, dim, SpanAt(s, dim, t), j, lo, hi)
    ensures lo <= Evaluate(s, dim, t)[j] <= hi
  {
    ClipTimeBounds(s, dim, t);
    var x := ClipTime(s, t);
    DeBoorWithin(s, dim, FindSpan(s, x, s.p), x, s.p, s.p, j, lo, hi);
  }

  // ---------- de Boor's triangle computes the sum of basis functions ----------

  /** The Cox-de Boor weight of basis function j of degree q. */
  function BasisWeight(s: Spline, x: real, j: nat, q: nat): real
    requires j + q < |s.u| && s.u[j] < s.u[j + q]
  {
    Ratio(x - s.u[j], s.u[j + q] - s.u[j])
  }

  /** Basis function j of degree q on span k. */
  ghost function Basis(s: Spline, k: nat, x: real, j: nat, q: nat): real
    requires StrictlyIncreasing(s.u) && j + q + 1 < |s.u|
    decreases q
  {
    if q == 0 then (if j == k then 1.0 else 0.0)
    else
      Mul(BasisWeight(s, x, j, q), Basis(s, k, x, j, q - 1))
      + Mul(1.0 - BasisWeight(s, x, j + 1, q), Basis(s, k, x, j + 1, q - 1))
  }

  /** A basis function of degree q only lives on spans j to j + q. */
  lemma {:induction false} BasisSupport(s: Spline, k: nat, x: real, j: nat, q: nat)
    requires StrictlyIncreasing(s.u) && j + q + 1 < |s.u|
    requires k < j || j + q < k
    ensures Basis(s, k, x, j, q) == 0.0
    decreases q
  {
    if q > 0 {
      BasisSupport(s, k, x, j, q - 1);
      BasisSupport(s, k, x, j + 1, q - 1);
    }
  }

  /** Axis a of the sum over entries i = r .. n - 1 of row r, weighted with the basis of the remaining degree. */
  ghost function RowSum(s: Spline, dim: nat, k: nat, x: real, a: nat, r: nat, n: nat): real
    requires WellFormed(s, dim) && s.p <= k < |s.points| && a < dim && r <= n <= s.p + 1 && r <= s.p
    decreases n
  {
    if n == r then 0.0
    else
      RowSum(s, dim, k, x, a, r, n - 1)
      + Mul(DeBoor(s, dim, k, x, r, n - 1)[a], Basis(s, k, x, k - s.p + n - 1, s.p - r))
  }

  lemma MulZero(a: real)
    ensures Mul(a, 0.0) == 0.0 && Mul(0.0, a) == 0.0 && Mul(a, 1.0) == a
  {
  }

  lemma SplitTerm(d: real, w1: real, b1: real, w2: real, b2: real)
    ensures Mul(d, Mul(w1, b1) + Mul(1.0 - w2, b2)) == Mul(Mul(w1, d), b1) + Mul(Mul(1.0 - w2, d), b2)
  {
    assert d * (w1 * b1 + (1.0 - w2) * b2) == (w1 * d) * b1 + ((1.0 - w2) * d) * b2;
  }

  lemma JoinTerm(a: real, b: real, c: real)
    ensures Mul(a + b, c) == Mul(a, c) + Mul(b, c)
  {
  }

  /**
   Rows r and r + 1 up to entry n - 1: row r exceeds row r + 1 by the part of entry n - 1 that belongs to the
   next basis function.
   */
  lemma {:induction false} RowTelescopes(s: Spline, dim: nat, k: nat, x: real, a: nat, r: nat, n: nat)
    requires WellFormed(s, dim) && s.p <= k < |s.points| && a < dim && r < s.p && r + 1 <= n <= s.p + 1
    ensures k + n - r < |s.u| && s.u[k - s.p + n] < s.u[k + n - r]
    ensures RowSum(s, dim, k, x, a, r, n) == RowSum(s, dim, k, x, a, r + 1, n)
          + Mul(Mul(1.0 - BasisWeight(s, x, k - s.p + n, s.p - r), DeBoor(s, dim, k, x, r, n - 1)[a]),
                Basis(s, k, x, k - s.p + n, s.p - r - 1))
    decreases n
  {
    hide Mul, Ratio, Basis, DeBoor, RowSum, Lerp;
    var j := k - s.p + n - 1;
    var q := s.p - r;
    assert k + n - r == j + 1 + q;
    var d := DeBoor(s, dim, k, x, r, n - 1)[a];
    BasisUnfold(s, k, x, j, q);
    SplitTerm(d, BasisWeight(s, x, j, q), Basis(s, k, x, j, q - 1), BasisWeight(s, x, j + 1, q),
              Basis(s, k, x, j + 1, q - 1));
    RowUnfold(s, dim, k, x, a, r, n);
    if n == r + 1 {
      BasisSupport(s, k, x, j, q - 1);
      MulZero(Mul(BasisWeight(s, x, j, q), d));
      RowEmpty(s, dim, k, x, a, r);
      RowEmpty(s, dim, k, x, a, r + 1);
    } else {
      RowTelescopes(s, dim, k, x, a, r, n - 1);
      RowUnfold(s, dim, k, x, a, r + 1, n);
      var d' := DeBoor(s, dim, k, x, r, n - 2)[a];
      DeBoorUnfold(s, dim, k, x, a, r, n - 1);
      JoinTerm(Mul(1.0 - BasisWeight(s, x, j, q), d'), Mul(BasisWeight(s, x, j, q), d), Basis(s, k, x, j, q - 1));
    }
  }

  lemma RowUnfold(s: Spline, dim: nat, k: nat, x: real, a: nat, r: nat, n: nat)
    requires WellFormed(s, dim) && s.p <= k < |s.points| && a < dim && r < n <= s.p + 1 && r <= s.p
    ensures RowSum(s, dim, k, x, a, r, n) == RowSum(s, dim, k, x, a, r, n - 1)
          + Mul(DeBoor(s, dim, k, x, r, n - 1)[a], Basis(s, k, x, k - s.p + n - 1, s.p - r))
  {
    hide DeBoor, Basis, Mul;
  }

  lemma RowEmpty(s: Spline, dim: nat, k: nat, x: real, a: nat, r: nat)
    requires WellFormed(s, dim) && s.p <= k < |s.points| && a < dim && r <= s.p
    ensures RowSum(s, dim, k, x, a, r, r) == 0.0
  {
  }

  lemma DeBoorUnfold(s: Spline, dim: nat, k: nat, x: real, a: nat, r: nat, i: nat)
    requires WellFormed(s, dim) && s.p <= k < |s.points| && a < dim && r < i <= s.p
    ensures var w := BasisWeight(s, x, k - s.p + i, s.p - r);
            DeBoor(s, dim, k, x, r + 1, i)[a]
              == Mul(1.0 - w, DeBoor(s, dim, k, x, r, i - 1)[a]) + Mul(w, DeBoor(s, dim, k, x, r, i)[a])
  {
    assert Weight(s, k, x, r + 1, i) == BasisWeight(s, x, k - s.p + i, s.p - r);
  }

  lemma BasisUnfold(s: Spline, k: nat, x: real, j: nat, q: nat)
    requires StrictlyIncreasing(s.u) && j + q + 1 < |s.u| && q > 0
    ensures Basis(s, k, x, j, q) == Mul(BasisWeight(s, x, j, q), Basis(s, k, x, j, q - 1))
                                  + Mul(1.0 - BasisWeight(s, x, j + 1, q), Basis(s, k, x, j + 1, q - 1))
  {
  }

  lemma {:induction false} RowsAgree(s: Spline, dim: nat, k: nat, x: real, a: nat, r: nat)
    requires WellFormed(s, dim) && s.p <= k < |s.points| && a < dim && r <= s.p
    ensures RowSum(s, dim, k, x, a, r, s.p + 1) == DeBoor(s, dim, k, x, s.p, s.p)[a]
    decreases s.p - r
  {
    hide Mul, Ratio, DeBoor, RowSum, Lerp;
    if r == s.p {
      RowUnfold(s, dim, k, x, a, r, s.p + 1);
      RowEmpty(s, dim, k, x, a, r);
      MulZero(DeBoor(s, dim, k, x, s.p, s.p)[a]);
    } else {
      RowTelescopes(s, dim, k, x, a, r, s.p + 1);
      BasisSupport(s, k, x, k + 1, s.p - r - 1);
      MulZero(Mul(1.0 - BasisWeight(s, x, k + 1, s.p - r), DeBoor(s, dim, k, x, r, s.p)[a]));
      RowsAgree(s, dim, k, x, a, r + 1);
    }
  }

  /** Axis a of the sum of control points times basis functions of the active span. */
  ghost function BasisSum(s: Spline, dim: nat, k: nat, x: real, a: nat, n: nat): real
    requires WellFormed(s, dim) && s.p <= k < |s.points| && a < dim && n <= s.p + 1
  {
    if n == 0 then 0.0
    else BasisSum(s, dim, k, x, a, n - 1) + Mul(s.points[k - s.p + n - 1][a], Basis(s, k, x, k - s.p + n - 1, s.p))
  }

  /** The triangle evaluates the spline as it is defined. */
  lemma DeBoorIsBasisSum(s: Spline, dim: nat, k: nat, x: real, a: nat)
    requires WellFormed(s, dim) && s.p <= k < |s.points| && a < dim
    ensures DeBoor(s, dim, k, x, s.p, s.p)[a] == BasisSum(s, dim, k, x, a, s.p + 1)
  {
    RowsAgree(s, dim, k, x, a, 0);
    RowZero(s, dim, k, x, a, s.p + 1);
  }

  lemma {:induction false} RowZero(s: Spline, dim: nat, k: nat, x: real, a: nat, n: nat)
    requires WellFormed(s, dim) && s.p <= k < |s.points| && a < dim && n <= s.p + 1
    ensures RowSum(s, dim, k, x, a, 0, n) == BasisSum(s, dim, k, x, a, n)
  {
    if n > 0 {
      RowZero(s, dim, k, x, a, n - 1);
    }
  }

  // ---------- derivatives ----------

  /** Control point i of the derivative: p * (P[i+1] - P[i]) / (u[i+p+1] - u[i+1]). */
  function DerivativePoint(s: Spline, i: nat): (q: Vec)
    requires i + 1 < |s.points| && i + s.p + 1 < |s.u| && |s.points[i]| == |s.points[i + 1]|
    requires s.u[i + s.p + 1] - s.u[i + 1] != 0.0
    ensures |q| == |s.points[i]|
    ensures forall a | 0 <= a < |q| ::
      q[a] == Ratio(Mul(s.p as real, s.points[i + 1][a] - s.points[i][a]), s.u[i + s.p + 1] - s.u[i + 1])
  {
    seq(|s.points[i]|, a requires 0 <= a < |s.points[i]| =>
      Ratio(Mul(s.p as real, s.points[i + 1][a] - s.points[i][a]), s.u[i + s.p + 1] - s.u[i + 1]))
  }

  /** The derivative spline: degree p - 1 on the knots without the first and the last. */
  ghost function Derivative(s: Spline, dim: nat): (d: Spline)
    requires WellFormed(s, dim) && s.p >= 1
    ensures WellFormed(d, dim) && d.p == s.p - 1 && |d.points| == |s.points| - 1
    ensures forall i | 0 <= i < |d.u| :: d.u[i] == s.u[i + 1]
    ensures forall i | 0 <= i < |d.points| :: s.u[i + 1] < s.u[i + s.p + 1] && d.points[i] == DerivativePoint(s, i)
  {
    var points := seq(|s.points| - 1, i requires 0 <= i < |s.points| - 1 => DerivativePoint(s, i));
    Spline(points, s.p - 1, s.u[1..|s.u| - 1])
  }

  /** Axis a of the acceleration as checkFeasibility writes it. */
  function AccelerationAt(s: Spline, i: nat, a: nat): real
    requires i + 2 < |s.points| && i + s.p + 2 < |s.u| && s.p >= 2
    requires a < |s.points[i]| && a < |s.points[i + 1]| && a < |s.points[i + 2]|
    requires s.u[i + s.p + 2] - s.u[i + 2] != 0.0 && s.u[i + s.p + 1] - s.u[i + 1] != 0.0
             && s.u[i + s.p + 1] - s.u[i + 2] != 0.0
  {
    Ratio(
      Mul(Mul(s.p as real, (s.p - 1) as real),
          Ratio(s.points[i + 2][a] - s.points[i + 1][a], s.u[i + s.p + 2] - s.u[i + 2])
            - Ratio(s.points[i + 1][a] - s.points[i][a], s.u[i + s.p + 1] - s.u[i + 1])),
      s.u[i + s.p + 1] - s.u[i + 2])
  }

  lemma RatioScale(c: real, d: real, x: real, b: real, y: real, b': real)
    requires b != 0.0 && b' != 0.0
    ensures Mul(c, Ratio(Mul(d, x), b) - Ratio(Mul(d, y), b')) == Mul(Mul(d, c), Ratio(x, b) - Ratio(y, b'))
  {
    assert (d * x) / b == d * (x / b);
    assert (d * y) / b' == d * (y / b');
    assert c * (d * (x / b) - d * (y / b')) == (d * c) * (x / b - y / b');
  }

  /** It is the control point of the second derivative. */
  lemma AccelerationIsSecondDerivative(s: Spline, dim: nat, i: nat, a: nat)
    requires WellFormed(s, dim) && s.p >= 2 && i + 2 < |s.points| && a < dim
    ensures s.u[i + 1] < s.u[i + s.p + 1] && s.u[i + 2] < s.u[i + s.p + 1] && s.u[i + 2] < s.u[i + s.p + 2]
    ensures Derivative(Derivative(s, dim), dim).points[i][a] == AccelerationAt(s, i, a)
  {
    hide Ratio, Mul;
    var d := Derivative(s, dim);
    var dd := Derivative(d, dim);
    assert d.points[i] == DerivativePoint(s, i) && d.points[i + 1] == DerivativePoint(s, i + 1);
    assert dd.points[i] == DerivativePoint(d, i);
    assert d.u[i + d.p + 1] == s.u[i + s.p + 1] && d.u[i + 1] == s.u[i + 2];
    RatioScale((s.p - 1) as real, s.p as real,
               s.points[i + 2][a] - s.points[i + 1][a], s.u[i + s.p + 2] - s.u[i + 2],
               s.points[i + 1][a] - s.points[i][a], s.u[i + s.p + 1] - s.u[i + 1]);
  }

  // ---------- feasibility ----------

  function Abs(a: real): real { if a < 0.0 then -a else a }

  ghost predicate PointsWithin(s: Spline, dim: nat, limit: real)
    requires WellFormed(s, dim) && dim >= 3
  {
    forall i, a | 0 <= i < |s.points| && 0 <= a < 3 :: Abs(s.points[i][a]) <= limit
  }

  /** Limits on the control points of a spline hold at every time. */
  lemma WithinEverywhere(s: Spline, dim: nat, limit: real, t: real, a: nat)
    requires WellFormed(s, dim) && dim >= 3 && PointsWithin(s, dim, limit) && a < 3
    ensures Abs(Evaluate(s, dim, t)[a]) <= limit
  {
    forall i | 0 <= i < |s.points|
      ensures -limit <= s.points[i][a] <= limit
    {
      assert Abs(s.points[i][a]) <= limit;
    }
    EvaluateWithin(s, dim, t, a, -limit, limit);
  }

  ghost predicate Feasible(s: Spline, dim: nat, velLimit: real, accLimit: real)
    requires WellFormed(s, dim) && dim >= 3 && s.p >= 2
  {
    && PointsWithin(Derivative(s, dim), dim, velLimit)
    && PointsWithin(Derivative(Derivative(s, dim), dim), dim, accLimit)
  }

  /** A feasible spline respects its limits at every time, not only at its control points. */
  lemma FeasibleEverywhere(s: Spline, dim: nat, velLimit: real, accLimit: real, t: real, a: nat)
    requires WellFormed(s, dim) && dim >= 3 && s.p >= 2 && a < 3
    requires Feasible(s, dim, velLimit, accLimit)
    ensures Abs(Evaluate(Derivative(s, dim), dim, t)[a]) <= velLimit
    ensures Abs(Evaluate(Derivative(Derivative(s, dim), dim), dim, t)[a]) <= accLimit
  {
    WithinEverywhere(Derivative(s, dim), dim, velLimit, t, a);
    WithinEverywhere(Derivative(Derivative(s, dim), dim), dim, accLimit, t, a);
  }

  lemma RowStart(s: Spline, dim: nat, k: nat, x: real, i: nat)
    requires WellFormed(s, dim) && s.p <= k < |s.points| && i <= s.p
    ensures DeBoor(s, dim, k, x, 0, i) == s.points[k - s.p + i]
  {
  }

  /** One entry of the triangle from its two neighbours in the row before. */
  lemma RowEntry(s: Spline, dim: nat, k: nat, x: real, r: nat, i: nat)
    requires WellFormed(s, dim) && s.p <= k < |s.points| && 1 <= r <= i <= s.p
    ensures i + 1 + k - r < |s.u| && s.u[i + k - s.p] < s.u[i + 1 + k - r]
    ensures DeBoor(s, dim, k, x, r, i)
         == Lerp(DeBoor(s, dim, k, x, r - 1, i - 1), DeBoor(s, dim, k, x, r - 1, i),
                 Ratio(x - s.u[i + k - s.p], s.u[i + 1 + k - r] - s.u[i + k - s.p]))
  {
  }

  /** The first count control points are within the limit on three axes. */
  ghost predicate FirstWithin(s: Spline, dim: nat, count: nat, limit: real)
    requires WellFormed(s, dim) && dim >= 3 && count <= |s.points|
  {
    forall i, a | 0 <= i < count && 0 <= a < 3 :: Abs(s.points[i][a]) <= limit
  }

  lemma OneMoreWithin(s: Spline, dim: nat, count: nat, limit: real)
    requires WellFormed(s, dim) && dim >= 3 && count < |s.points|
    ensures FirstWithin(s, dim, count + 1, limit) <==>
              FirstWithin(s, dim, count, limit)
              && Abs(s.points[count][0]) <= limit && Abs(s.points[count][1]) <= limit
                  && Abs(s.points[count][2]) <= limit
  {
    hide Abs;
    if FirstWithin(s, dim, count, limit)
       && Abs(s.points[count][0]) <= limit && Abs(s.points[count][1]) <= limit && Abs(s.points[count][2]) <= limit {
      forall i, a | 0 <= i < count + 1 && 0 <= a < 3
        ensures Abs(s.points[i][a]) <= limit
      {
        assert a == 0 || a == 1 || a == 2;
      }
    }
  }

  // ---------- the class ----------

  class UniformBspline {
    var points: seq<Vec>
    var p: nat
    var n: int
    var m: int
    var u: seq<real>
    var interval: real
    var limitVel: real
    var limitAcc: real
    var tolerance: real
    ghost const dim: nat

    function Model(): Spline
      reads this
    {
      Spline(points, p, u)
    }

    ghost predicate Valid()
      reads this
    {
      WellFormed(Model(), dim) && n == |points| - 1 && m == n + p + 1
    }

    constructor (points: seq<Vec>, order: nat, interval: real, ghost dim: nat)
      requires |points| > order && Columns(points, dim) && 0.0 < interval
      ensures Valid() && this.points == points && p == order && this.dim == dim
      ensures forall i | 0 <= i < |u| :: u[i] == Mul((i - order) as real, interval)
    {
      this.dim := dim;
      new;
      SetUniformBspline(points, order, interval);
      UniformIncreases(u, order, interval);
    }

    /** Uniform knots: knot i is at (i - p) intervals, for any interval. */
    method SetUniformBspline(points: seq<Vec>, order: nat, interval: real)
      modifies this
      ensures this.points == points && p == order && this.interval == interval
      ensures n == |points| - 1 && m == n + p + 1 && |u| == |points| + order + 1
      ensures forall i | 0 <= i < |u| :: u[i] == Mul((i - order) as real, interval)
      ensures limitVel == old(limitVel) && limitAcc == old(limitAcc) && tolerance == old(tolerance)
    {
      hide Mul;
      this.points, p, this.interval := points, order, interval;
      n := |points| - 1;
      m := n + p + 1;
      u := [];
      for i := 0 to m + 1
        invariant this.points == points && p == order && this.interval == interval && n == |points| - 1
                  && m == n + p + 1
        invariant limitVel == old(limitVel) && limitAcc == old(limitAcc) && tolerance == old(tolerance)
        invariant |u| == i && forall k | 0 <= k < i :: u[k] == Mul((k - order) as real, interval)
      {
        if i <= p {
          u := u + [Mul((i - p) as real, interval)];
        } else {
          NextKnot(i - 1 - order, interval);
          u := u + [u[i - 1] + interval];
        }
      }
    }

    /** evaluateDeBoor: the triangle d is updated in place, each row from its far end. */
    method EvaluateDeBoor(t: real) returns (value: Vec)
      requires Valid()
      ensures value == Evaluate(Model(), dim, t)
    {
      ghost var s := Model();
      ClipTimeBounds(s, dim, t);
      var x := ClipTime(Model(), t);
      var k := p;
      while u[k + 1] < x
        invariant p <= k < |points| && u[k] <= x
        invariant FindSpan(s, x, k) == FindSpan(s, x, p)
        decreases |points| - k
      {
        assert u[k + 1] < x <= u[|points|];
        k := k + 1;
      }
      var d := new Vec[p + 1](i requires 0 <= i < p + 1 reads this =>
        if 0 <= k - p + i < |points| then points[k - p + i] else []);
      Triangle(d, k, x);
      value := d[p];
    }

    method Triangle(d: array<Vec>, k: nat, x: real)
      requires Valid() && d.Length == p + 1 && p <= k < |points|
      requires forall i | 0 <= i <= p :: d[i] == points[k - p + i]
      modifies d
      ensures d[p] == DeBoor(Model(), dim, k, x, p, p)
    {
      hide Ratio, Mul, Lerp, DeBoor;
      ghost var s := Model();
      forall i | 0 <= i <= p
        ensures DeBoor(s, dim, k, x, 0, i) == points[k - p + i]
      {
        RowStart(s, dim, k, x, i);
      }
      for r := 1 to p + 1
        invariant forall i | r - 1 <= i <= p :: d[i] == DeBoor(s, dim, k, x, r - 1, i)
      {
        UpdateRow(d, k, x, r);
      }
    }

    method UpdateRow(d: array<Vec>, k: nat, x: real, r: nat)
      requires Valid() && d.Length == p + 1 && p <= k < |points| && 1 <= r <= p
      requires forall i | r - 1 <= i <= p :: d[i] == DeBoor(Model(), dim, k, x, r - 1, i)
      modifies d
      ensures forall i | r <= i <= p :: d[i] == DeBoor(Model(), dim, k, x, r, i)
    {
      hide Ratio, Mul, Lerp, DeBoor, StrictlyIncreasing;
      ghost var s := Model();
      var i := p;
      while i >= r
        invariant r - 1 <= i <= p
        invariant forall i' | i < i' <= p :: d[i'] == DeBoor(s, dim, k, x, r, i')
        invariant forall i' | r - 1 <= i' <= i :: d[i'] == DeBoor(s, dim, k, x, r - 1, i')
      {
        RowEntry(s, dim, k, x, r, i);
        var alpha := Ratio(x - u[i + k - p], u[i + 1 + k - r] - u[i + k - p]);
        d[i] := Lerp(d[i - 1], d[i], alpha);
        i := i - 1;
      }
    }

    method GetDerivativeControlPoints() returns (ctp: seq<Vec>)
      requires Valid() && p >= 1
      ensures ctp == Derivative(Model(), dim).points
    {
      ctp := [];
      for i := 0 to |points| - 1
        invariant |ctp| == i && forall k | 0 <= k < i :: ctp[k] == Derivative(Model(), dim).points[k]
      {
        ctp := ctp + [DerivativePoint(Model(), i)];
      }
    }

    /** The derivative as a spline of its own, on the inner knots. */
    method GetDerivative() returns (derivative: UniformBspline)
      requires Valid() && p >= 1 && 0.0 < interval
      ensures fresh(derivative) && derivative.Valid() && derivative.dim == dim
      ensures derivative.Model() == Derivative(Model(), dim)
    {
      var ctp := GetDerivativeControlPoints();
      derivative := new UniformBspline(ctp, p - 1, interval, dim);
      derivative.SetKnot(u[1..|u| - 1]);
    }

    method SetKnot(knot: seq<real>)
      modifies this`u
      ensures u == knot
    {
      u := knot;
    }

    /** Velocity and acceleration control points against the enlarged limits; the time ratio is not computed. */
    method CheckFeasibility() returns (fea: bool)
      requires Valid() && dim >= 3 && p >= 2
      ensures fea <==> Feasible(Model(), dim, Enlarged(limitVel, tolerance), Enlarged(limitAcc, tolerance))
    {
      hide Derivative;
      var velocityFine := CheckVelocity(Enlarged(limitVel, tolerance));
      var accelerationFine := CheckAcceleration(Enlarged(limitAcc, tolerance));
      fea := velocityFine && accelerationFine;
    }

    method CheckVelocity(limit: real) returns (fine: bool)
      requires Valid() && dim >= 3 && p >= 2
      ensures fine <==> PointsWithin(Derivative(Model(), dim), dim, limit)
    {
      hide Ratio, Mul, Derivative, FirstWithin, Abs;
      ghost var d := Derivative(Model(), dim);
      fine := true;
      NoneYet(d, dim, limit);
      for i := 0 to |points| - 1
        invariant fine <==> FirstWithin(d, dim, i, limit)
      {
        assert d.points[i] == DerivativePoint(Model(), i);
        OneMoreWithin(d, dim, i, limit);
        var vel := DerivativePoint(Model(), i);
        if Abs(vel[0]) > limit || Abs(vel[1]) > limit || Abs(vel[2]) > limit {
          fine := false;
        }
      }
      AllWithin(d, dim, limit);
    }

    method CheckAcceleration(limit: real) returns (fine: bool)
      requires Valid() && dim >= 3 && p >= 2
      ensures fine <==> PointsWithin(Derivative(Derivative(Model(), dim), dim), dim, limit)
    {
      hide Derivative, FirstWithin, Abs, AccelerationAt;
      ghost var dd := Derivative(Derivative(Model(), dim), dim);
      fine := true;
      NoneYet(dd, dim, limit);
      for i := 0 to |points| - 2
        invariant fine <==> FirstWithin(dd, dim, i, limit)
      {
        AccelerationIsSecondDerivative(Model(), dim, i, 0);
        AccelerationIsSecondDerivative(Model(), dim, i, 1);
        AccelerationIsSecondDerivative(Model(), dim, i, 2);
        OneMoreWithin(dd, dim, i, limit);
        var a0, a1, a2 := AccelerationAt(Model(), i, 0), AccelerationAt(Model(), i, 1), AccelerationAt(Model(), i, 2);
        if Abs(a0) > limit || Abs(a1) > limit || Abs(a2) > limit {
          fine := false;
        }
      }
      AllWithin(dd, dim, limit);
    }
  }

  lemma NoneYet(s: Spline, dim: nat, limit: real)
    requires WellFormed(s, dim) && dim >= 3
    ensures FirstWithin(s, dim, 0, limit)
  {
  }

  lemma AllWithin(s: Spline, dim: nat, limit: real)
    requires WellFormed(s, dim) && dim >= 3
    ensures FirstWithin(s, dim, |s.points|, limit) <==> PointsWithin(s, dim, limit)
  {
  }

  function Enlarged(limit: real, tolerance: real): real {
    limit * (1.0 + tolerance) + 0.0001
  }

  lemma NextKnot(i: int, interval: real)
    ensures Mul((i + 1) as real, interval) == Mul(i as real, interval) + interval
  {
  }

  lemma UniformIncreases(u: seq<real>, order: nat, interval: real)
    requires 0.0 < interval
    requires forall i | 0 <= i < |u| :: u[i] == Mul((i - order) as real, interval)
    ensures StrictlyIncreasing(u)
  {
    hide Mul;
    forall i, j | 0 <= i < j < |u|
      ensures u[i] < u[j]
    {
      ProductPositive((j - i) as real, interval);
      KnotGap(i - order, j - order, interval);
    }
  }

  lemma KnotGap(i: int, j: int, interval: real)
    ensures Mul(j as real, interval) - Mul(i as real, interval) == Mul((j - i) as real, interval)
  {
  }
}
