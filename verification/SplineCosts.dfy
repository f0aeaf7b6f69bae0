/**
 The smoothness and feasibility costs of bspline_optimizer.cpp. A 3 x N matrix of control points is its
 column-major buffer: entry (j, i) is at 3 * i + j, and one loop over k = 3 * i + j covers a column loop
 with its three axes.
 */
module SplineCosts {
  import opened Vectors

  function Sum(x: Vec, y: Vec): (z: Vec)
    requires |x| == |y|
    ensures |z| == |x|
    ensures forall i | 0 <= i < |z| :: z[i] == x[i] + y[i]
  {
    seq(|x|, i requires 0 <= i < |x| => x[i] + y[i])
  }

  function Bump(g: Vec, k: nat, v: real): (g': Vec)
    requires k < |g|
    ensures |g'| == |g|
  {
    g[k := g[k] + v]
  }

  /** Adding to one entry of a gradient moves its inner product with h by that entry. */
  lemma {:induction false} DotBump(g: Vec, k: nat, v: real, h: Vec)
    requires k < |g| == |h|
    ensures Dot(Bump(g, k, v), h) == Dot(g, h) + Mul(v, h[k])
    decreases |g|
  {
    var n := |g| - 1;
    var g' := Bump(g, k, v);
    MulAddLeft(g[n], v, h[n]);
    if k == n {
      assert g'[..n] == g[..n];
    } else {
      DotBump(g[..n], k, v, h[..n]);
      assert g'[..n] == Bump(g[..n], k, v) && g'[n] == g[n] && h[..n][k] == h[k];
    }
    hide Mul;
    DotUnfold(g, h);
    DotUnfold(g', h);
  }

  lemma DotUnfold(x: Vec, y: Vec)
    requires |x| == |y| > 0
    ensures var n := |x| - 1; Dot(x, y) == Dot(x[..n], y[..n]) + Mul(x[n], y[n])
  {
  }

  lemma MulAddLeft(a: real, b: real, c: real)
    ensures Mul(a + b, c) == Mul(a, c) + Mul(b, c)
  {
  }

  // ---------- finite differences of neighbouring control points, per axis ----------

  datatype Stencil = Velocity | Acceleration | Jerk

  function Reach(st: Stencil): nat {
    match st case Velocity => 3 case Acceleration => 6 case Jerk => 9
  }

  function Difference(st: Stencil, q: Vec, k: nat): real
    requires k + Reach(st) < |q|
  {
    match st
    case Velocity => q[k + 3] - q[k]
    case Acceleration => q[k + 6] - 2.0 * q[k + 3] + q[k]
    case Jerk => q[k + 9] - 3.0 * q[k + 6] + 3.0 * q[k + 3] - q[k]
  }

  /** The transpose of the stencil: the entries a weight w on difference k reaches. */
  function Scattered(st: Stencil, g: Vec, k: nat, w: real): (g': Vec)
    requires k + Reach(st) < |g|
    ensures |g'| == |g|
  {
    match st
    case Velocity => Bump(Bump(g, k, -w), k + 3, w)
    case Acceleration => Bump(Bump(Bump(g, k, w), k + 3, -2.0 * w), k + 6, w)
    case Jerk => Bump(Bump(Bump(Bump(g, k, -w), k + 3, 3.0 * w), k + 6, -3.0 * w), k + 9, w)
  }

  lemma MulByDifference(w: real, a: real, b: real, c: real, d: real)
    ensures Mul(-w, a) + Mul(w, b) == Mul(w, b - a)
    ensures Mul(w, a) + Mul(-2.0 * w, b) + Mul(w, c) == Mul(w, c - 2.0 * b + a)
    ensures Mul(-w, a) + Mul(3.0 * w, b) + Mul(-3.0 * w, c) + Mul(w, d) == Mul(w, d - 3.0 * c + 3.0 * b - a)
  {
  }

  lemma VelocityTranspose(g: Vec, k: nat, w: real, h: Vec)
    requires k + 3 < |g| == |h|
    ensures Dot(Bump(Bump(g, k, -w), k + 3, w), h) == Dot(g, h) + Mul(w, h[k + 3] - h[k])
  {
    hide Mul, Dot, Bump;
    DotBump(g, k, -w, h);
    DotBump(Bump(g, k, -w), k + 3, w, h);
    MulByDifference(w, h[k], h[k + 3], 0.0, 0.0);
  }

  lemma AccelerationTranspose(g: Vec, k: nat, w: real, h: Vec)
    requires k + 6 < |g| == |h|
    ensures Dot(Bump(Bump(Bump(g, k, w), k + 3, -2.0 * w), k + 6, w), h)
            == Dot(g, h) + Mul(w, h[k + 6] - 2.0 * h[k + 3] + h[k])
  {
    hide Mul, Dot, Bump;
    var g1 := Bump(g, k, w);
    var g2 := Bump(g1, k + 3, -2.0 * w);
    DotBump(g, k, w, h);
    DotBump(g1, k + 3, -2.0 * w, h);
    DotBump(g2, k + 6, w, h);
    MulByDifference(w, h[k], h[k + 3], h[k + 6], 0.0);
  }

  lemma JerkTranspose(g: Vec, k: nat, w: real, h: Vec)
    requires k + 9 < |g| == |h|
    ensures Dot(Bump(Bump(Bump(Bump(g, k, -w), k + 3, 3.0 * w), k + 6, -3.0 * w), k + 9, w), h)
         == Dot(g, h) + Mul(w, h[k + 9] - 3.0 * h[k + 6] + 3.0 * h[k + 3] - h[k])
  {
    hide Mul, Dot, Bump;
    var g1 := Bump(g, k, -w);
    var g2 := Bump(g1, k + 3, 3.0 * w);
    var g3 := Bump(g2, k + 6, -3.0 * w);
    DotBump(g, k, -w, h);
    DotBump(g1, k + 3, 3.0 * w, h);
    DotBump(g2, k + 6, -3.0 * w, h);
    DotBump(g3, k + 9, w, h);
    MulByDifference(w, h[k], h[k + 3], h[k + 6], h[k + 9]);
  }

  lemma ScatterIsTranspose(st: Stencil, g: Vec, k: nat, w: real, h: Vec)
    requires k + Reach(st) < |g| == |h|
    ensures Dot(Scattered(st, g, k, w), h) == Dot(g, h) + Mul(w, Difference(st, h, k))
  {
    hide Mul, Dot, Bump;
    match st {
      case Velocity => VelocityTranspose(g, k, w, h);
      case Acceleration => AccelerationTranspose(g, k, w, h);
      case Jerk => JerkTranspose(g, k, w, h);
    }
  }

  lemma DifferenceLinear(st: Stencil, q: Vec, h: Vec, k: nat)
    requires k + Reach(st) < |q| == |h|
    ensures Difference(st, Sum(q, h), k) == Difference(st, q, k) + Difference(st, h, k)
  {
  }

  function Terms(st: Stencil, q: Vec): nat {
    if |q| <= Reach(st) then 0 else |q| - Reach(st)
  }

  // ---------- smoothness ----------

  function SquareSum(st: Stencil, q: Vec, n: nat): real
    requires n <= Terms(st, q)
  {
    if n == 0 then 0.0
    else SquareSum(st, q, n - 1) + Mul(Difference(st, q, n - 1), Difference(st, q, n - 1))
  }

  function SmoothnessCost(st: Stencil, q: Vec): real {
    SquareSum(st, q, Terms(st, q))
  }

  /** First-order part of the cost in direction h. */
  ghost function SquareSlope(st: Stencil, q: Vec, h: Vec, n: nat): real
    requires n <= Terms(st, q) && |q| == |h|
  {
    if n == 0 then 0.0
    else SquareSlope(st, q, h, n - 1) + Mul(2.0 * Difference(st, q, n - 1), Difference(st, h, n - 1))
  }

  lemma SquareOfSum(a: real, b: real)
    ensures Mul(a + b, a + b) == Mul(a, a) + Mul(2.0 * a, b) + Mul(b, b)
  {
  }

  lemma {:induction false} SquareSumExpands(st: Stencil, q: Vec, h: Vec, n: nat)
    requires n <= Terms(st, q) && |q| == |h|
    ensures SquareSum(st, Sum(q, h), n) == SquareSum(st, q, n) + SquareSlope(st, q, h, n) + SquareSum(st, h, n)
  {
    hide Mul, Difference;
    if n > 0 {
      SquareSumExpands(st, q, h, n - 1);
      DifferenceLinear(st, q, h, n - 1);
      SquareOfSum(Difference(st, q, n - 1), Difference(st, h, n - 1));
    }
  }

  /** What a gradient buffer gained is the exact first-order part, with no error but the cost of h itself. */
  ghost predicate ExactGradient(st: Stencil, q: Vec, g0: Vec, g1: Vec)
    requires |g0| == |g1| == |q|
  {
    forall h: Vec | |h| == |q| ::
      SmoothnessCost(st, Sum(q, h)) == SmoothnessCost(st, q) + (Dot(g1, h) - Dot(g0, h)) + SmoothnessCost(st, h)
  }

  ghost predicate GainedSlope(st: Stencil, q: Vec, g0: Vec, g1: Vec, n: nat)
    requires |g0| == |g1| == |q| && n <= Terms(st, q)
  {
    forall h: Vec | |h| == |q| :: Dot(g1, h) == Dot(g0, h) + SquareSlope(st, q, h, n)
  }

  lemma GainStep(st: Stencil, q: Vec, g0: Vec, g1: Vec, n: nat)
    requires |g0| == |g1| == |q| && n < Terms(st, q) && GainedSlope(st, q, g0, g1, n)
    ensures GainedSlope(st, q, g0, Scattered(st, g1, n, 2.0 * Difference(st, q, n)), n + 1)
  {
    hide Mul, Dot, Difference, Scattered;
    forall h: Vec | |h| == |q|
      ensures Dot(Scattered(st, g1, n, 2.0 * Difference(st, q, n)), h) == Dot(g0, h) + SquareSlope(st, q, h, n + 1)
    {
      ScatterIsTranspose(st, g1, n, 2.0 * Difference(st, q, n), h);
    }
  }

  lemma GainIsExact(st: Stencil, q: Vec, g0: Vec, g1: Vec)
    requires |g0| == |g1| == |q| && GainedSlope(st, q, g0, g1, Terms(st, q))
    ensures ExactGradient(st, q, g0, g1)
  {
    forall h: Vec | |h| == |q|
      ensures SmoothnessCost(st, Sum(q, h)) == SmoothnessCost(st, q) + (Dot(g1, h) - Dot(g0, h)) + SmoothnessCost(st, h)
    {
      SquareSumExpands(st, q, h, Terms(st, q));
    }
  }

  method CalcSmoothnessCost(q: Vec, gradient: array<real>, useJerk: bool) returns (cost: real)
    requires gradient.Length == |q|
    modifies gradient
    ensures cost == SmoothnessCost(if useJerk then Jerk else Acceleration, q)
    ensures ExactGradient(if useJerk then Jerk else Acceleration, q, old(gradient[..]), gradient[..])
  {
    hide Mul, Dot;
    cost := 0.0;
    ghost var g0 := gradient[..];
    if useJerk {
      for k := 0 to Terms(Jerk, q)
        invariant cost == SquareSum(Jerk, q, k)
        invariant GainedSlope(Jerk, q, g0, gradient[..], k)
      {
        GainStep(Jerk, q, g0, gradient[..], k);
        var jerk := q[k + 9] - 3.0 * q[k + 6] + 3.0 * q[k + 3] - q[k];
        cost := cost + Mul(jerk, jerk);
        AddJerk(gradient, k, 2.0 * jerk);
      }
      GainIsExact(Jerk, q, g0, gradient[..]);
    } else {
      for k := 0 to Terms(Acceleration, q)
        invariant cost == SquareSum(Acceleration, q, k)
        invariant GainedSlope(Acceleration, q, g0, gradient[..], k)
      {
        GainStep(Acceleration, q, g0, gradient[..], k);
        var acc := q[k + 6] - 2.0 * q[k + 3] + q[k];
        cost := cost + Mul(acc, acc);
        AddAcceleration(gradient, k, 2.0 * acc);
      }
      GainIsExact(Acceleration, q, g0, gradient[..]);
    }
  }

  method AddJerk(g: array<real>, k: nat, w: real)
    requires k + 9 < g.Length
    modifies g
    ensures g[..] == Scattered(Jerk, old(g[..]), k, w)
  {
    g[k] := g[k] + -w;
    g[k + 3] := g[k + 3] + 3.0 * w;
    g[k + 6] := g[k + 6] + -3.0 * w;
    g[k + 9] := g[k + 9] + w;
  }

  method AddAcceleration(g: array<real>, k: nat, w: real)
    requires k + 6 < g.Length
    modifies g
    ensures g[..] == Scattered(Acceleration, old(g[..]), k, w)
  {
    g[k] := g[k] + w;
    g[k + 3] := g[k + 3] + -2.0 * w;
    g[k + 6] := g[k + 6] + w;
  }

  method AddVelocity(g: array<real>, k: nat, w: real)
    requires k + 3 < g.Length
    modifies g
    ensures g[..] == Scattered(Velocity, old(g[..]), k, w)
  {
    g[k] := g[k] + -w;
    g[k + 3] := g[k + 3] + w;
  }

  // ---------- feasibility ----------

  /** How far v lies outside the limit, with sign; the two tests in source order. */
  function Excess(v: real, limit: real): real {
    if v > limit then v - limit
    else if v < -limit then v + limit
    else 0.0
  }

  /** What the squared excess changes by beyond its first-order part. */
  function Beyond(v: real, w: real, limit: real): real {
    var e, e' := Excess(v, limit), Excess(v + w, limit);
    Mul(e', e') - Mul(e, e) - Mul(2.0 * e, w)
  }

  /** First-order behaviour of the squared excess: convex, and at most quadratic. */
  ghost predicate ConvexSmooth(v: real, w: real, limit: real) {
    0.0 <= Beyond(v, w, limit) <= Mul(w, w)
  }

  lemma ProductSign(a: real, b: real)
    requires (a >= 0.0 && b >= 0.0) || (a <= 0.0 && b <= 0.0)
    ensures Mul(a, b) >= 0.0
  {
    assert a * b == (-a) * (-b);
  }

  lemma ClampIdentity(e: real, e': real, delta: real)
    ensures var w := e' - e + delta;
            Mul(e', e') - Mul(e, e) - Mul(2.0 * e, w) == Mul(e' - e, e' - e) + 2.0 * Mul(e, -delta)
    ensures var w := e' - e + delta;
            Mul(w, w) - (Mul(e' - e, e' - e) + 2.0 * Mul(e, -delta)) == 2.0 * Mul(e', delta) + Mul(delta, delta)
  {
  }

  /** With a non-negative limit the penalty is convex with a bounded curvature, at every point. */
  lemma ExcessConvexSmooth(v: real, w: real, limit: real)
    requires 0.0 <= limit
    ensures ConvexSmooth(v, w, limit)
  {
    hide Mul;
    var e, e' := Excess(v, limit), Excess(v + w, limit);
    var c, c' := v - e, v + w - e';
    var delta := c' - c;
    assert e == 0.0 || (e > 0.0 && delta <= 0.0) || (e < 0.0 && delta >= 0.0);
    assert e' == 0.0 || (e' > 0.0 && delta >= 0.0) || (e' < 0.0 && delta <= 0.0);
    ClampIdentity(e, e', delta);
    if e == 0.0 { ZeroProduct(-delta); } else { ProductSign(e, -delta); }
    if e' == 0.0 { ZeroProduct(delta); } else { ProductSign(e', delta); }
    ProductSign(e' - e, e' - e);
    ProductSign(delta, delta);
  }

  lemma ZeroProduct(a: real)
    ensures Mul(0.0, a) == 0.0
  {
  }

  /**
   A limit below zero breaks it: the two tests overlap, and however short the step over the limit, the penalty drops by
   a jump of fixed size.
   */
  lemma NegativeLimitJumps(limit: real, w: real)
    requires limit < 0.0 && 0.0 < w <= -0.5 * limit
    ensures Beyond(limit, w, limit) + Mul(w, w) <= -1.5 * Mul(limit, limit) < 0.0
  {
    assert Excess(limit, limit) == 2.0 * limit && Excess(limit + w, limit) == w;
    SquareSign(limit);
    var c := -0.5 * limit;
    MulMonotone(w, w, c);
    MulMonotone(c, w, c);
    assert Mul(w, c) == Mul(c, w) && Mul(c, c) == 0.25 * Mul(limit, limit);
    assert Mul(2.0 * limit, 2.0 * limit) == 4.0 * Mul(limit, limit);
    assert Mul(2.0 * (2.0 * limit), w) == -8.0 * Mul(c, w);
  }

  lemma MulMonotone(c: real, a: real, b: real)
    requires 0.0 <= c && a <= b
    ensures Mul(c, a) <= Mul(c, b)
  {
    assert c * (b - a) >= 0.0;
  }

  /** Away from the jump the penalty never grows faster than its quadratic bound. */
  lemma BeyondAtMostSquare(v: real, w: real, limit: real)
    requires 0.0 <= limit || (v > limit && v + w > limit)
    ensures Beyond(v, w, limit) <= Mul(w, w)
  {
    if 0.0 <= limit {
      ExcessConvexSmooth(v, w, limit);
    } else {
      SquareOfSum(v - limit, w);
    }
  }

  /** One family of penalties: weight * Excess(scale * difference, limit)^2. */
  datatype Penalty = Penalty(st: Stencil, scale: real, limit: real, weight: real)

  function Scaled(p: Penalty, q: Vec, k: nat): real
    requires k + Reach(p.st) < |q|
  {
    Mul(p.scale, Difference(p.st, q, k))
  }

  function Term(p: Penalty, q: Vec, k: nat): real
    requires k + Reach(p.st) < |q|
  {
    var e := Excess(Scaled(p, q, k), p.limit);
    Mul(p.weight, Mul(e, e))
  }

  /** What the gradient of one term puts on its difference. */
  function TermWeight(p: Penalty, q: Vec, k: nat): real
    requires k + Reach(p.st) < |q|
  {
    Mul(Mul(p.weight, 2.0 * Excess(Scaled(p, q, k), p.limit)), p.scale)
  }

  function PenaltySum(p: Penalty, q: Vec, n: nat): real
    requires n <= Terms(p.st, q)
  {
    if n == 0 then 0.0 else PenaltySum(p, q, n - 1) + Term(p, q, n - 1)
  }

  ghost function PenaltySlope(p: Penalty, q: Vec, h: Vec, n: nat): real
    requires n <= Terms(p.st, q) && |q| == |h|
  {
    if n == 0 then 0.0
    else PenaltySlope(p, q, h, n - 1) + Mul(TermWeight(p, q, n - 1), Difference(p.st, h, n - 1))
  }

  /** The quadratic form that bounds the second-order part. */
  function PenaltyBound(p: Penalty, h: Vec, n: nat): real
    requires n <= Terms(p.st, h)
  {
    if n == 0 then 0.0
    else PenaltyBound(p, h, n - 1) + Mul(p.weight, Mul(Scaled(p, h, n - 1), Scaled(p, h, n - 1)))
  }

  lemma WeightedBounds(u: real, a: real, b: real)
    requires 0.0 <= u && 0.0 <= a <= b
    ensures 0.0 <= Mul(u, a) <= Mul(u, b)
  {
    assert u * (b - a) >= 0.0;
    assert u * a >= 0.0;
  }

  lemma Regroup(u: real, x: real, y: real, e: real, c: real, d: real)
    ensures Mul(u, x - y - Mul(2.0 * e, Mul(c, d))) == Mul(u, x) - Mul(u, y) - Mul(Mul(Mul(u, 2.0 * e), c), d)
  {
    assert u * (x - y - (2.0 * e) * (c * d)) == u * x - u * y - ((u * (2.0 * e)) * c) * d;
  }

  /** What one term changes by beyond its first-order part. */
  lemma TermBeyond(p: Penalty, q: Vec, h: Vec, k: nat)
    requires k + Reach(p.st) < |q| == |h|
    ensures Term(p, Sum(q, h), k) - Term(p, q, k) - Mul(TermWeight(p, q, k), Difference(p.st, h, k))
         == Mul(p.weight, Beyond(Scaled(p, q, k), Scaled(p, h, k), p.limit))
  {
    hide Mul, Difference, Excess;
    var v, w := Scaled(p, q, k), Scaled(p, h, k);
    DifferenceLinear(p.st, q, h, k);
    MulSum(p.scale, Difference(p.st, q, k), Difference(p.st, h, k));
    var e, e' := Excess(v, p.limit), Excess(v + w, p.limit);
    Regroup(p.weight, Mul(e', e'), Mul(e, e), e, p.scale, Difference(p.st, h, k));
  }

  lemma TermExpands(p: Penalty, q: Vec, h: Vec, k: nat)
    requires k + Reach(p.st) < |q| == |h| && 0.0 <= p.limit && 0.0 <= p.weight
    ensures 0.0 <= Term(p, Sum(q, h), k) - Term(p, q, k) - Mul(TermWeight(p, q, k), Difference(p.st, h, k))
                <= Mul(p.weight, Mul(Scaled(p, h, k), Scaled(p, h, k)))
  {
    hide Mul, Difference, Excess, Beyond;
    var v, w := Scaled(p, q, k), Scaled(p, h, k);
    TermBeyond(p, q, h, k);
    ExcessConvexSmooth(v, w, p.limit);
    WeightedBounds(p.weight, Beyond(v, w, p.limit), Mul(w, w));
  }

  lemma MulSum(c: real, a: real, b: real)
    ensures Mul(c, a + b) == Mul(c, a) + Mul(c, b)
  {
  }

  lemma {:induction false} PenaltyExpands(p: Penalty, q: Vec, h: Vec, n: nat)
    requires n <= Terms(p.st, q) && |q| == |h| && 0.0 <= p.limit && 0.0 <= p.weight
    ensures 0.0 <= PenaltySum(p, Sum(q, h), n) - PenaltySum(p, q, n) - PenaltySlope(p, q, h, n) <= PenaltyBound(p, h, n)
  {
    hide Mul, Difference, Term, TermWeight;
    if n > 0 {
      PenaltyExpands(p, q, h, n - 1);
      TermExpands(p, q, h, n - 1);
    }
  }

  ghost predicate GainedPenaltySlope(p: Penalty, q: Vec, g0: Vec, g1: Vec, n: nat)
    requires |g0| == |g1| == |q| && n <= Terms(p.st, q)
  {
    forall h: Vec | |h| == |q| :: Dot(g1, h) == Dot(g0, h) + PenaltySlope(p, q, h, n)
  }

  lemma PenaltyGainStep(p: Penalty, q: Vec, g0: Vec, g1: Vec, k: nat)
    requires |g0| == |g1| == |q| && k < Terms(p.st, q) && GainedPenaltySlope(p, q, g0, g1, k)
    ensures GainedPenaltySlope(p, q, g0, Scattered(p.st, g1, k, TermWeight(p, q, k)), k + 1)
  {
    hide Mul, Dot, Difference, Scattered, TermWeight;
    forall h: Vec | |h| == |q|
      ensures Dot(Scattered(p.st, g1, k, TermWeight(p, q, k)), h) == Dot(g0, h) + PenaltySlope(p, q, h, k + 1)
    {
      ScatterIsTranspose(p.st, g1, k, TermWeight(p, q, k), h);
    }
  }

  lemma NoScatter(st: Stencil, g: Vec, k: nat, w: real)
    requires k + Reach(st) < |g| && w == 0.0
    ensures Scattered(st, g, k, w) == g
  {
  }

  function VelocityPenalty(ts: real, maxVel: real): Penalty
    requires ts != 0.0
  {
    Penalty(Velocity, 1.0 / ts, maxVel, 1.0 / ts / ts)
  }

  function AccelerationPenalty(ts: real, maxAcc: real): Penalty
    requires ts != 0.0
  {
    Penalty(Acceleration, 1.0 / ts / ts, maxAcc, 1.0)
  }

  function FeasibilityCost(q: Vec, ts: real, maxVel: real, maxAcc: real): real
    requires ts != 0.0
  {
    PenaltySum(VelocityPenalty(ts, maxVel), q, Terms(Velocity, q))
      + PenaltySum(AccelerationPenalty(ts, maxAcc), q, Terms(Acceleration, q))
  }

  function Abs(r: real): real { if r < 0.0 then -r else r }

  /** Outside a limit the excess is how far, on the side of v; within it, both ends included, there is none. */
  lemma ExcessIsDistance(v: real, limit: real)
    requires 0.0 <= limit
    ensures Excess(v, limit) == 0.0 <==> Abs(v) <= limit
    ensures Abs(v) > limit ==> Abs(Excess(v, limit)) == Abs(v) - limit && (Excess(v, limit) > 0.0 <==> v > 0.0)
  {
  }

  lemma TermIsSquaredDistance(p: Penalty, q: Vec, k: nat)
    requires k + Reach(p.st) < |q| && 0.0 <= p.limit && 0.0 < p.weight
    ensures 0.0 <= Term(p, q, k) && (Term(p, q, k) == 0.0 <==> Abs(Scaled(p, q, k)) <= p.limit)
    ensures var over := Abs(Scaled(p, q, k)) - p.limit; over > 0.0 ==> Term(p, q, k) == Mul(p.weight, Mul(over, over))
  {
    var v := Scaled(p, q, k);
    var e := Excess(v, p.limit);
    ExcessIsDistance(v, p.limit);
    SquareSign(e);
    assert Mul(e, e) == Mul(-e, -e);
    if e != 0.0 {
      ProductPositive(p.weight, Mul(e, e));
    } else {
      assert Mul(p.weight, 0.0) == 0.0;
    }
    hide Mul, Scaled, Excess;
  }

  /** A family of penalties vanishes exactly when each of its differences is within the limit. */
  lemma {:induction false} PenaltyZero(p: Penalty, q: Vec, n: nat)
    requires n <= Terms(p.st, q) && 0.0 < p.weight && (n > 0 ==> 0.0 <= p.limit)
    ensures 0.0 <= PenaltySum(p, q, n)
    ensures PenaltySum(p, q, n) == 0.0 <==> forall k | 0 <= k < n :: Abs(Scaled(p, q, k)) <= p.limit
  {
    if n > 0 {
      PenaltyZero(p, q, n - 1);
      TermIsSquaredDistance(p, q, n - 1);
      hide Term, Scaled;
    }
  }

  /** The velocities and accelerations of one axis after the other, over knots ts apart. */
  function Velocities(q: Vec, ts: real, k: nat): real
    requires k + 3 < |q| && ts != 0.0
  {
    (q[k + 3] - q[k]) / ts
  }

  function Accelerations(q: Vec, ts: real, k: nat): real
    requires k + 6 < |q| && ts != 0.0
  {
    ((q[k + 6] - q[k + 3]) / ts - (q[k + 3] - q[k]) / ts) / ts
  }

  ghost predicate Respects(q: Vec, ts: real, maxVel: real, maxAcc: real)
    requires ts != 0.0
  {
    && (forall k | 0 <= k < |q| - 3 :: Abs(Velocities(q, ts, k)) <= maxVel)
    && forall k | 0 <= k < |q| - 6 :: Abs(Accelerations(q, ts, k)) <= maxAcc
  }

  lemma ScaledIsRate(q: Vec, ts: real, maxVel: real, maxAcc: real, k: nat)
    requires ts != 0.0
    ensures k + 3 < |q| ==> Scaled(VelocityPenalty(ts, maxVel), q, k) == Velocities(q, ts, k)
    ensures k + 6 < |q| ==> Scaled(AccelerationPenalty(ts, maxAcc), q, k) == Accelerations(q, ts, k)
  {
    if k + 3 < |q| {
      OverTs(ts, q[k + 3] - q[k]);
    }
    if k + 6 < |q| {
      OverTs(ts, (q[k + 6] - q[k + 3]) - (q[k + 3] - q[k]));
      TwiceOverTs(ts, q[k + 6] - q[k + 3], q[k + 3] - q[k]);
    }
    hide Mul;
  }

  lemma OverTs(ts: real, a: real)
    requires ts != 0.0
    ensures Mul(1.0 / ts, a) == a / ts
  {
    var r := 1.0 / ts;
    assert r * ts == 1.0;
    assert (r * a) * ts == a;
  }

  lemma TwiceOverTs(ts: real, a: real, b: real)
    requires ts != 0.0
    ensures Mul(1.0 / ts / ts, a - b) == (a / ts - b / ts) / ts
  {
    var r := 1.0 / ts;
    OverTs(ts, r);
    OverTs(ts, a);
    OverTs(ts, b);
    OverTs(ts, a / ts - b / ts);
    assert (r * r) * (a - b) == r * (r * a - r * b);
  }

  /** The feasibility cost is zero exactly when every velocity and every acceleration is within its limit. */
  lemma CostZero(q: Vec, ts: real, maxVel: real, maxAcc: real)
    requires ts != 0.0 && LimitsOk(|q|, maxVel, maxAcc)
    ensures 0.0 <= FeasibilityCost(q, ts, maxVel, maxAcc)
    ensures FeasibilityCost(q, ts, maxVel, maxAcc) == 0.0 <==> Respects(q, ts, maxVel, maxAcc)
  {
    var vel, acc := VelocityPenalty(ts, maxVel), AccelerationPenalty(ts, maxAcc);
    InverseSquarePositive(ts);
    PenaltyZero(vel, q, Terms(Velocity, q));
    PenaltyZero(acc, q, Terms(Acceleration, q));
    forall k: nat
      ensures k + 3 < |q| ==> Scaled(vel, q, k) == Velocities(q, ts, k)
      ensures k + 6 < |q| ==> Scaled(acc, q, k) == Accelerations(q, ts, k)
    {
      ScaledIsRate(q, ts, maxVel, maxAcc, k);
    }
    hide Scaled, PenaltySum, Velocities, Accelerations;
  }

  function FeasibilityBound(h: Vec, ts: real, maxVel: real, maxAcc: real): real
    requires ts != 0.0
  {
    PenaltyBound(VelocityPenalty(ts, maxVel), h, Terms(Velocity, h))
      + PenaltyBound(AccelerationPenalty(ts, maxAcc), h, Terms(Acceleration, h))
  }

  ghost function FeasibilitySlope(q: Vec, h: Vec, ts: real, maxVel: real, maxAcc: real): real
    requires ts != 0.0 && |q| == |h|
  {
    PenaltySlope(VelocityPenalty(ts, maxVel), q, h, Terms(Velocity, q))
      + PenaltySlope(AccelerationPenalty(ts, maxAcc), q, h, Terms(Acceleration, q))
  }

  /** What the cost changes by beyond a claimed first-order part is between zero and a quadratic form. */
  ghost predicate FirstOrder(q: Vec, h: Vec, slope: real, ts: real, maxVel: real, maxAcc: real)
    requires |h| == |q| && ts != 0.0
  {
    0.0 <= FeasibilityCost(Sum(q, h), ts, maxVel, maxAcc) - FeasibilityCost(q, ts, maxVel, maxAcc) - slope
        <= FeasibilityBound(h, ts, maxVel, maxAcc)
  }

  /** What a gradient buffer gained is the gradient, in every direction. */
  ghost predicate TrueGradient(q: Vec, g0: Vec, g1: Vec, ts: real, maxVel: real, maxAcc: real)
    requires |g0| == |g1| == |q| && ts != 0.0
  {
    forall h: Vec | |h| == |q| :: FirstOrder(q, h, Dot(g1, h) - Dot(g0, h), ts, maxVel, maxAcc)
  }

  /** The slope that the loops scatter is the gradient of the cost at q. */
  ghost predicate SlopeIsGradient(q: Vec, ts: real, maxVel: real, maxAcc: real)
    requires ts != 0.0
  {
    forall h: Vec | |h| == |q| :: FirstOrder(q, h, FeasibilitySlope(q, h, ts, maxVel, maxAcc), ts, maxVel, maxAcc)
  }

  /** What the cost changes by beyond the slope. */
  ghost function CostBeyond(q: Vec, h: Vec, ts: real, maxVel: real, maxAcc: real): real
    requires ts != 0.0 && |q| == |h|
  {
    FeasibilityCost(Sum(q, h), ts, maxVel, maxAcc) - FeasibilityCost(q, ts, maxVel, maxAcc)
      - FeasibilitySlope(q, h, ts, maxVel, maxAcc)
  }

  predicate Small(h: Vec, eps: real) { forall i | 0 <= i < |h| :: -eps <= h[i] <= eps }

  /** However short the steps, some step from q drops the cost by `depth` below its first-order part. */
  ghost predicate DropsBy(q: Vec, depth: real, ts: real, maxVel: real, maxAcc: real)
    requires ts != 0.0
  {
    forall eps | 0.0 < eps :: DropsWithin(q, depth, eps, ts, maxVel, maxAcc)
  }

  ghost predicate DropsWithin(q: Vec, depth: real, eps: real, ts: real, maxVel: real, maxAcc: real)
    requires ts != 0.0
  {
    exists h :: Small(h, eps) && |h| == |q| && CostBeyond(q, h, ts, maxVel, maxAcc) <= -depth
  }

  /** Limits that the configuration must not set below zero, for a buffer of n entries. */
  predicate LimitsOk(n: nat, maxVel: real, maxAcc: real) {
    (n >= 4 ==> 0.0 <= maxVel) && (n >= 7 ==> 0.0 <= maxAcc)
  }

  lemma InverseSquarePositive(ts: real)
    requires ts != 0.0
    ensures 0.0 < 1.0 / ts / ts
  {
    SquareSign(ts);
    assert 1.0 / ts / ts == 1.0 / Mul(ts, ts);
    QuotientPositive(1.0, Mul(ts, ts));
  }

  lemma PenaltyExpandsIfAny(p: Penalty, q: Vec, h: Vec, n: nat)
    requires n <= Terms(p.st, q) && |q| == |h| && (n > 0 ==> 0.0 <= p.limit) && 0.0 <= p.weight
    ensures 0.0 <= PenaltySum(p, Sum(q, h), n) - PenaltySum(p, q, n) - PenaltySlope(p, q, h, n) <= PenaltyBound(p, h, n)
  {
    if n > 0 {
      PenaltyExpands(p, q, h, n);
      hide PenaltySum, PenaltySlope, PenaltyBound;
    }
  }

  lemma LimitsSuffice(q: Vec, ts: real, maxVel: real, maxAcc: real)
    requires ts != 0.0 && LimitsOk(|q|, maxVel, maxAcc)
    ensures SlopeIsGradient(q, ts, maxVel, maxAcc)
  {
    hide PenaltySum, PenaltySlope, PenaltyBound;
    InverseSquarePositive(ts);
    forall h: Vec | |h| == |q|
      ensures FirstOrder(q, h, FeasibilitySlope(q, h, ts, maxVel, maxAcc), ts, maxVel, maxAcc)
    {
      PenaltyExpandsIfAny(VelocityPenalty(ts, maxVel), q, h, Terms(Velocity, q));
      PenaltyExpandsIfAny(AccelerationPenalty(ts, maxAcc), q, h, Terms(Acceleration, q));
    }
  }

  // ---------- polygons at which a negative limit fails ----------

  function Zeros(n: nat): (z: Vec)
    ensures |z| == n && forall i | 0 <= i < n :: z[i] == 0.0
  {
    seq(n, i => 0.0)
  }

  predicate LastOnly(h: Vec) { forall i | 0 <= i < |h| - 1 :: h[i] == 0.0 }

  lemma UntouchedTerm(p: Penalty, q: Vec, h: Vec, k: nat)
    requires |q| == |h| && LastOnly(h) && k + Reach(p.st) < |q| - 1
    ensures Term(p, Sum(q, h), k) - Term(p, q, k) - Mul(TermWeight(p, q, k), Difference(p.st, h, k)) == 0.0
  {
    TermBeyond(p, q, h, k);
    assert Difference(p.st, h, k) == 0.0;
    hide Difference, Excess;
    assert Scaled(p, h, k) == 0.0;
  }

  /** A direction that moves the last entry only changes the last difference only. */
  lemma {:induction false} Untouched(p: Penalty, q: Vec, h: Vec, n: nat)
    requires |q| == |h| && LastOnly(h) && n + Reach(p.st) < |q|
    ensures PenaltySum(p, Sum(q, h), n) - PenaltySum(p, q, n) - PenaltySlope(p, q, h, n) == 0.0
  {
    if n > 0 {
      Untouched(p, q, h, n - 1);
      UntouchedTerm(p, q, h, n - 1);
      hide Mul, Term, TermWeight, Difference;
    }
  }

  lemma LastTerm(p: Penalty, q: Vec, h: Vec)
    requires |q| == |h| && LastOnly(h) && |q| > Reach(p.st)
    ensures var (n, k) := (Terms(p.st, q), |q| - Reach(p.st) - 1);
            PenaltySum(p, Sum(q, h), n) - PenaltySum(p, q, n) - PenaltySlope(p, q, h, n)
              == Mul(p.weight, Beyond(Scaled(p, q, k), Scaled(p, h, k), p.limit))
  {
    var k := |q| - Reach(p.st) - 1;
    Untouched(p, q, h, k);
    TermBeyond(p, q, h, k);
    hide Mul, Term, TermWeight, Difference, Beyond, Scaled;
  }

  /** What the whole cost changes by beyond the slope, in a direction that moves the last entry only. */
  lemma LastEntryBeyond(q: Vec, h: Vec, ts: real, maxVel: real, maxAcc: real)
    requires |q| == |h| >= 4 && LastOnly(h) && ts != 0.0
    ensures var (vel, acc, n) := (VelocityPenalty(ts, maxVel), AccelerationPenalty(ts, maxAcc), |q|);
            CostBeyond(q, h, ts, maxVel, maxAcc)
            == Mul(1.0 / ts / ts, Beyond(Scaled(vel, q, n - 4), Scaled(vel, h, n - 4), maxVel))
               + if n >= 7 then Beyond(Scaled(acc, q, n - 7), Scaled(acc, h, n - 7), maxAcc) else 0.0
  {
    LastTerm(VelocityPenalty(ts, maxVel), q, h);
    if |q| >= 7 {
      LastTerm(AccelerationPenalty(ts, maxAcc), q, h);
      MulOne(Beyond(Scaled(AccelerationPenalty(ts, maxAcc), q, |q| - 7),
                    Scaled(AccelerationPenalty(ts, maxAcc), h, |q| - 7), maxAcc));
    }
    hide Mul, Beyond, Scaled, PenaltySlope, PenaltySum;
    assert |q| < 7 ==> Terms(Acceleration, q) == Terms(Acceleration, Sum(q, h)) == 0;
    NoTerms(AccelerationPenalty(ts, maxAcc), q, h);
  }

  lemma NoTerms(p: Penalty, q: Vec, h: Vec)
    requires |q| == |h|
    ensures PenaltySum(p, q, 0) == PenaltySlope(p, q, h, 0) == 0.0
  {
  }

  lemma MulOne(a: real)
    ensures Mul(1.0, a) == a
  {
  }

  lemma ScaleBack(a: real, ts: real)
    requires ts != 0.0
    ensures Mul(1.0 / ts, Mul(a, ts)) == a && Mul(1.0 / ts / ts, Mul(a, ts)) == a / ts
    ensures Mul(1.0 / ts, Mul(Mul(a, ts), ts)) == Mul(a, ts) && Mul(1.0 / ts / ts, Mul(Mul(a, ts), ts)) == a
    ensures Mul(a / ts, a / ts) == Mul(1.0 / ts / ts, Mul(a, a))
    ensures Mul(1.0 / ts / ts, Mul(Mul(a, ts), Mul(a, ts))) == Mul(a, a)
    ensures 0.0 < 1.0 / ts / ts
  {
    var r := 1.0 / ts;
    assert r * ts == 1.0 && r / ts == r * r && a / ts == a * r;
    assert r * (a * ts) == a * (r * ts);
    assert r * (a * ts * ts) == (a * ts) * (r * ts);
    assert (r * r) * (a * ts) == (a * r) * (r * ts);
    assert (r * r) * (a * ts * ts) == a * (r * ts) * (r * ts);
    assert (a * r) * (a * r) == (r * r) * (a * a);
    assert (r * r) * ((a * ts) * (a * ts)) == (a * a) * ((r * ts) * (r * ts));
    SquareSign(r);
  }

  /** The last velocity sits on the negative limit, and the last acceleration well above its own. */
  function SteepPolygon(n: nat, ts: real, limit: real, far: real): (q: Vec)
    requires n >= 4
    ensures |q| == n
  {
    var q := Zeros(n)[n - 1 := Mul(limit, ts)];
    if n >= 7 then q[n - 7 := Mul(Mul(far, ts), ts) - Mul(limit, ts)] else q
  }

  function LastMoved(n: nat, d: real): (h: Vec)
    requires n > 0
    ensures |h| == n && LastOnly(h)
  {
    Zeros(n)[n - 1 := d]
  }

  lemma SteepScaled(n: nat, ts: real, maxVel: real, maxAcc: real, far: real, w: real)
    requires n >= 4 && ts != 0.0
    ensures var (vel, acc) := (VelocityPenalty(ts, maxVel), AccelerationPenalty(ts, maxAcc));
            var (q, h) := (SteepPolygon(n, ts, maxVel, far), LastMoved(n, Mul(w, ts)));
            && Scaled(vel, q, n - 4) == maxVel && Scaled(vel, h, n - 4) == w
            && (n >= 7 ==> Scaled(acc, q, n - 7) == far && Scaled(acc, h, n - 7) == w / ts)
  {
    ScaleBack(maxVel, ts);
    ScaleBack(w, ts);
    ScaleBack(far, ts);
    hide Mul;
  }

  lemma SteepBeyond(n: nat, ts: real, maxVel: real, maxAcc: real, far: real, w: real)
    requires ts != 0.0 && maxVel < 0.0 && 0.0 < w <= -0.5 * maxVel && 0.0 <= far && 0.0 <= far + w / ts
    ensures Mul(1.0 / ts / ts, Beyond(maxVel, w, maxVel)) + (if n >= 7 then Beyond(far, w / ts, maxAcc) else 0.0)
         <= -Mul(1.0 / ts / ts, 1.5 * Mul(maxVel, maxVel))
  {
    ScaleBack(w, ts);
    NegativeLimitJumps(maxVel, w);
    SquareSign(w);
    WeightedDrop(1.0 / ts / ts, Beyond(maxVel, w, maxVel), Mul(w, w), 1.5 * Mul(maxVel, maxVel));
    if n >= 7 {
      BeyondAtMostSquare(far, w / ts, maxAcc);
    }
    hide Mul, Beyond;
  }

  lemma WeightedDrop(c: real, a: real, b: real, depth: real)
    requires 0.0 < c && a + b <= -depth && 0.0 <= b
    ensures Mul(c, a) <= -Mul(c, depth) && Mul(c, a) + Mul(c, b) <= -Mul(c, depth)
  {
    MulMonotone(c, a + b, -depth);
    MulMonotone(c, a, a + b);
  }

  /** A step short enough for both the limit and the scale. */
  lemma ShortStep(limit: real, scale: real, eps: real) returns (w: real)
    requires limit < 0.0 && scale != 0.0 && 0.0 < eps
    ensures 0.0 < w <= -0.5 * limit && -eps <= Mul(w, scale) <= eps
  {
    var size := if scale < 0.0 then -scale else scale;
    var q := eps / size;
    QuotientTimes(eps, size);
    QuotientPositive(eps, size);
    w := if q < -0.5 * limit then q else -0.5 * limit;
    MulMonotone(size, w, q);
    assert Mul(size, q) == Mul(q, size) && Mul(size, w) == Mul(w, size);
    ProductPositive(w, size);
    assert Mul(w, scale) == (if scale < 0.0 then -Mul(w, size) else Mul(w, size));
  }

  /** A step over the negative velocity limit, however short, drops the cost. */
  lemma VelocityDrops(n: nat, ts: real, maxVel: real, maxAcc: real, far: real, eps: real)
    requires n >= 4 && ts != 0.0 && maxVel < 0.0 && 0.0 < eps
    requires 0.0 <= far && forall w | 0.0 < w <= -0.5 * maxVel :: StaysAbove(far, ts, w)
    ensures DropsWithin(SteepPolygon(n, ts, maxVel, far), Mul(1.0 / ts / ts, 1.5 * Mul(maxVel, maxVel)), eps,
                        ts, maxVel, maxAcc)
  {
    var w := ShortStep(maxVel, ts, eps);
    var q, h := SteepPolygon(n, ts, maxVel, far), LastMoved(n, Mul(w, ts));
    LastEntryBeyond(q, h, ts, maxVel, maxAcc);
    SteepScaled(n, ts, maxVel, maxAcc, far, w);
    assert StaysAbove(far, ts, w);
    SteepBeyond(n, ts, maxVel, maxAcc, far, w);
    hide CostBeyond, Beyond, Scaled, SteepPolygon, Mul;
    assert Small(h, eps);
  }

  predicate StaysAbove(far: real, ts: real, w: real)
    requires ts != 0.0
  {
    0.0 <= far + w / ts
  }

  lemma FarEnough(ts: real, limit: real) returns (far: real)
    requires ts != 0.0 && limit < 0.0
    ensures 0.0 <= far && forall w | 0.0 < w <= -0.5 * limit :: StaysAbove(far, ts, w)
  {
    var c := -0.5 * limit;
    far := if ts < 0.0 then -(c / ts) else 0.0;
    NegativeQuotient(c, ts);
    forall w | 0.0 < w <= c
      ensures StaysAbove(far, ts, w)
    {
      NegativeQuotient(w, ts);
      NegativeQuotient(c - w, ts);
      assert c / ts - w / ts == (c - w) / ts;
    }
  }

  lemma NegativeQuotient(a: real, ts: real)
    requires 0.0 <= a && ts != 0.0
    ensures if ts < 0.0 then a / ts <= 0.0 else 0.0 <= a / ts
  {
  }

  lemma NegativeVelocityLimit(n: nat, ts: real, maxVel: real, maxAcc: real) returns (q: Vec, depth: real)
    requires n >= 4 && ts != 0.0 && maxVel < 0.0
    ensures |q| == n && 0.0 < depth && DropsBy(q, depth, ts, maxVel, maxAcc)
  {
    var far := FarEnough(ts, maxVel);
    q, depth := SteepPolygon(n, ts, maxVel, far), Mul(1.0 / ts / ts, 1.5 * Mul(maxVel, maxVel));
    ScaleBack(1.0, ts);
    SquareSign(maxVel);
    ProductPositive(1.0 / ts / ts, 1.5 * Mul(maxVel, maxVel));
    hide DropsWithin, Mul, SteepPolygon;
    forall eps | 0.0 < eps
      ensures DropsWithin(q, depth, eps, ts, maxVel, maxAcc)
    {
      VelocityDrops(n, ts, maxVel, maxAcc, far, eps);
    }
  }

  /** The last acceleration sits on the negative limit, with no velocity there. */
  function BentPolygon(n: nat, ts: real, limit: real): (q: Vec)
    requires n >= 7
    ensures |q| == n
  {
    Zeros(n)[n - 7 := Mul(Mul(limit, ts), ts)]
  }

  lemma BentScaled(n: nat, ts: real, maxVel: real, maxAcc: real, w: real)
    requires n >= 7 && ts != 0.0
    ensures var (vel, acc) := (VelocityPenalty(ts, maxVel), AccelerationPenalty(ts, maxAcc));
            var (q, h) := (BentPolygon(n, ts, maxAcc), LastMoved(n, Mul(Mul(w, ts), ts)));
            && Scaled(acc, q, n - 7) == maxAcc && Scaled(acc, h, n - 7) == w
            && Scaled(vel, q, n - 4) == 0.0 && Scaled(vel, h, n - 4) == Mul(w, ts)
  {
    ScaleBack(maxAcc, ts);
    ScaleBack(w, ts);
    ScaleBack(0.0, ts);
    ZeroProduct(ts);
    hide Mul;
  }

  lemma AccelerationDrops(n: nat, ts: real, maxVel: real, maxAcc: real, eps: real)
    requires n >= 7 && ts != 0.0 && 0.0 <= maxVel && maxAcc < 0.0 && 0.0 < eps
    ensures DropsWithin(BentPolygon(n, ts, maxAcc), 1.5 * Mul(maxAcc, maxAcc), eps, ts, maxVel, maxAcc)
  {
    SquareSign(ts);
    var w := ShortStep(maxAcc, Mul(ts, ts), eps);
    assert Mul(Mul(w, ts), ts) == Mul(w, Mul(ts, ts));
    var q, h := BentPolygon(n, ts, maxAcc), LastMoved(n, Mul(Mul(w, ts), ts));
    LastEntryBeyond(q, h, ts, maxVel, maxAcc);
    BentScaled(n, ts, maxVel, maxAcc, w);
    ScaleBack(w, ts);
    NegativeLimitJumps(maxAcc, w);
    BeyondAtMostSquare(0.0, Mul(w, ts), maxVel);
    MulMonotone(1.0 / ts / ts, Beyond(0.0, Mul(w, ts), maxVel), Mul(Mul(w, ts), Mul(w, ts)));
    hide CostBeyond, Beyond, Scaled, BentPolygon, Mul;
    assert Small(h, eps);
  }

  lemma NegativeAccelerationLimit(n: nat, ts: real, maxVel: real, maxAcc: real) returns (q: Vec, depth: real)
    requires n >= 7 && ts != 0.0 && 0.0 <= maxVel && maxAcc < 0.0
    ensures |q| == n && 0.0 < depth && DropsBy(q, depth, ts, maxVel, maxAcc)
  {
    q, depth := BentPolygon(n, ts, maxAcc), 1.5 * Mul(maxAcc, maxAcc);
    SquareSign(maxAcc);
    hide DropsWithin, Mul, BentPolygon;
    forall eps | 0.0 < eps
      ensures DropsWithin(q, depth, eps, ts, maxVel, maxAcc)
    {
      AccelerationDrops(n, ts, maxVel, maxAcc, eps);
    }
  }

  /** A polygon with such a drop has no gradient, the slope included. */
  lemma DropIsNoGradient(q: Vec, depth: real, ts: real, maxVel: real, maxAcc: real)
    requires ts != 0.0 && 0.0 < depth && DropsBy(q, depth, ts, maxVel, maxAcc)
    ensures !SlopeIsGradient(q, ts, maxVel, maxAcc)
  {
    assert DropsWithin(q, depth, 1.0, ts, maxVel, maxAcc);
    var h :| Small(h, 1.0) && |h| == |q| && CostBeyond(q, h, ts, maxVel, maxAcc) <= -depth;
    hide FeasibilityCost, FeasibilitySlope, FeasibilityBound;
    assert !FirstOrder(q, h, FeasibilitySlope(q, h, ts, maxVel, maxAcc), ts, maxVel, maxAcc);
  }

  /**
   The scattered slope is the gradient of the cost at every control polygon of a size exactly when the limits in use
   are not negative; otherwise there is a polygon at which arbitrarily short steps drop the cost by a fixed amount.
   */
  lemma LimitCondition(n: nat, ts: real, maxVel: real, maxAcc: real)
    requires ts != 0.0
    ensures (forall q: Vec | |q| == n :: SlopeIsGradient(q, ts, maxVel, maxAcc)) <==> LimitsOk(n, maxVel, maxAcc)
    ensures !LimitsOk(n, maxVel, maxAcc) ==>
              exists q: Vec, depth :: |q| == n && 0.0 < depth && DropsBy(q, depth, ts, maxVel, maxAcc)
  {
    hide SlopeIsGradient, DropsBy;
    if LimitsOk(n, maxVel, maxAcc) {
      forall q: Vec | |q| == n
        ensures SlopeIsGradient(q, ts, maxVel, maxAcc)
      {
        LimitsSuffice(q, ts, maxVel, maxAcc);
      }
    } else {
      var q, depth;
      if n >= 4 && maxVel < 0.0 {
        q, depth := NegativeVelocityLimit(n, ts, maxVel, maxAcc);
      } else {
        q, depth := NegativeAccelerationLimit(n, ts, maxVel, maxAcc);
      }
      DropIsNoGradient(q, depth, ts, maxVel, maxAcc);
    }
  }

  // ---------- what the loops leave in the gradient ----------

  ghost predicate GainedFeasibilitySlope(q: Vec, g0: Vec, g1: Vec, ts: real, maxVel: real, maxAcc: real)
    requires |g0| == |g1| == |q| && ts != 0.0
  {
    forall h: Vec | |h| == |q| :: Dot(g1, h) == Dot(g0, h) + FeasibilitySlope(q, h, ts, maxVel, maxAcc)
  }

  lemma GainsAdd(q: Vec, g0: Vec, g1: Vec, g2: Vec, ts: real, maxVel: real, maxAcc: real)
    requires |g0| == |g1| == |g2| == |q| && ts != 0.0
    requires GainedPenaltySlope(VelocityPenalty(ts, maxVel), q, g0, g1, Terms(Velocity, q))
    requires GainedPenaltySlope(AccelerationPenalty(ts, maxAcc), q, g1, g2, Terms(Acceleration, q))
    ensures GainedFeasibilitySlope(q, g0, g2, ts, maxVel, maxAcc)
  {
    hide PenaltySlope, Dot, VelocityPenalty, AccelerationPenalty;
  }

  lemma GainDecides(q: Vec, g0: Vec, g1: Vec, ts: real, maxVel: real, maxAcc: real)
    requires |g0| == |g1| == |q| && ts != 0.0 && GainedFeasibilitySlope(q, g0, g1, ts, maxVel, maxAcc)
    ensures TrueGradient(q, g0, g1, ts, maxVel, maxAcc) <==> SlopeIsGradient(q, ts, maxVel, maxAcc)
  {
    hide FirstOrder, Dot, FeasibilitySlope;
    if SlopeIsGradient(q, ts, maxVel, maxAcc) {
      forall h: Vec | |h| == |q|
        ensures FirstOrder(q, h, Dot(g1, h) - Dot(g0, h), ts, maxVel, maxAcc)
      {
        assert Dot(g1, h) - Dot(g0, h) == FeasibilitySlope(q, h, ts, maxVel, maxAcc);
      }
    }
    if TrueGradient(q, g0, g1, ts, maxVel, maxAcc) {
      forall h: Vec | |h| == |q|
        ensures FirstOrder(q, h, FeasibilitySlope(q, h, ts, maxVel, maxAcc), ts, maxVel, maxAcc)
      {
        assert Dot(g1, h) - Dot(g0, h) == FeasibilitySlope(q, h, ts, maxVel, maxAcc);
      }
    }
  }

  lemma ScaledForms(d: real, ts: real)
    requires ts != 0.0
    ensures d / ts == Mul(1.0 / ts, d)
    ensures d * (1.0 / ts / ts) == Mul(1.0 / ts / ts, d)
  {
    assert d / ts == d * (1.0 / ts);
  }

  lemma WeightForms(e: real, ts: real)
    requires ts != 0.0
    ensures 2.0 * e / ts * (1.0 / ts / ts) == Mul(Mul(1.0 / ts / ts, 2.0 * e), 1.0 / ts)
    ensures 2.0 * e * (1.0 / ts / ts) == Mul(Mul(1.0, 2.0 * e), 1.0 / ts / ts)
    ensures -(2.0 * e / ts * (1.0 / ts / ts)) == -2.0 * e / ts * (1.0 / ts / ts)
  {
    var r := 1.0 / ts;
    assert 2.0 * e / ts == 2.0 * e * r;
    assert r / ts == r * r;
  }

  /** The terms as the loops write them, for an excess e. */
  function VelocityTermOf(e: real, ts: real): real
    requires ts != 0.0
  {
    e * e * (1.0 / ts / ts)
  }

  function VelocityWeightOf(e: real, ts: real): real
    requires ts != 0.0
  {
    2.0 * e / ts * (1.0 / ts / ts)
  }

  function AccelerationWeightOf(e: real, ts: real): real
    requires ts != 0.0
  {
    2.0 * e * (1.0 / ts / ts)
  }

  lemma VelocityTermForms(q: Vec, k: nat, ts: real, maxVel: real)
    requires k < Terms(Velocity, q) && ts != 0.0
    ensures var e := Excess((q[k + 3] - q[k]) / ts, maxVel);
            && Term(VelocityPenalty(ts, maxVel), q, k) == VelocityTermOf(e, ts)
            && TermWeight(VelocityPenalty(ts, maxVel), q, k) == VelocityWeightOf(e, ts)
            && VelocityTermOf(0.0, ts) == VelocityWeightOf(0.0, ts) == 0.0
  {
    hide Excess;
    var e := Excess((q[k + 3] - q[k]) / ts, maxVel);
    ScaledForms(q[k + 3] - q[k], ts);
    WeightForms(e, ts);
    assert Scaled(VelocityPenalty(ts, maxVel), q, k) == Mul(1.0 / ts, q[k + 3] - q[k]);
    assert e * e * (1.0 / ts / ts) == Mul(1.0 / ts / ts, Mul(e, e));
  }

  lemma AccelerationTermForms(q: Vec, k: nat, ts: real, maxAcc: real)
    requires k < Terms(Acceleration, q) && ts != 0.0
    ensures var e := Excess(Mul(1.0 / ts / ts, q[k + 6] - 2.0 * q[k + 3] + q[k]), maxAcc);
            && Term(AccelerationPenalty(ts, maxAcc), q, k) == Mul(e, e)
            && TermWeight(AccelerationPenalty(ts, maxAcc), q, k) == AccelerationWeightOf(e, ts)
            && Mul(0.0, 0.0) == AccelerationWeightOf(0.0, ts) == 0.0
  {
    hide Excess;
    var e := Excess(Mul(1.0 / ts / ts, q[k + 6] - 2.0 * q[k + 3] + q[k]), maxAcc);
    WeightForms(e, ts);
    assert Mul(1.0, Mul(e, e)) == Mul(e, e);
  }

  method CalcFeasibilityCost(q: Vec, gradient: array<real>, ts: real, maxVel: real, maxAcc: real) returns (cost: real)
    requires gradient.Length == |q| && ts != 0.0
    modifies gradient
    ensures cost == FeasibilityCost(q, ts, maxVel, maxAcc)
    ensures GainedFeasibilitySlope(q, old(gradient[..]), gradient[..], ts, maxVel, maxAcc)
    ensures TrueGradient(q, old(gradient[..]), gradient[..], ts, maxVel, maxAcc)
            <==> SlopeIsGradient(q, ts, maxVel, maxAcc)
    ensures LimitsOk(|q|, maxVel, maxAcc) ==> TrueGradient(q, old(gradient[..]), gradient[..], ts, maxVel, maxAcc)
    ensures LimitsOk(|q|, maxVel, maxAcc) ==> 0.0 <= cost && (cost == 0.0 <==> Respects(q, ts, maxVel, maxAcc))
  {
    hide Terms, PenaltySum, Respects, GainedPenaltySlope, GainedFeasibilitySlope, TrueGradient, SlopeIsGradient;
    hide VelocityPenalty, AccelerationPenalty;
    ghost var g0 := gradient[..];
    var velocityCost := VelocityLoop(q, gradient, ts, maxVel);
    ghost var g1 := gradient[..];
    var accelerationCost := AccelerationLoop(q, gradient, ts, maxAcc);
    cost := velocityCost + accelerationCost;
    GainsAdd(q, g0, g1, gradient[..], ts, maxVel, maxAcc);
    GainDecides(q, g0, gradient[..], ts, maxVel, maxAcc);
    if LimitsOk(|q|, maxVel, maxAcc) {
      LimitsSuffice(q, ts, maxVel, maxAcc);
      CostZero(q, ts, maxVel, maxAcc);
    }
  }

  method VelocityLoop(q: Vec, gradient: array<real>, ts: real, maxVel: real) returns (cost: real)
    requires gradient.Length == |q| && ts != 0.0
    modifies gradient
    ensures cost == PenaltySum(VelocityPenalty(ts, maxVel), q, Terms(Velocity, q))
    ensures GainedPenaltySlope(VelocityPenalty(ts, maxVel), q, old(gradient[..]), gradient[..], Terms(Velocity, q))
  {
    hide Dot, Scattered;
    cost := 0.0;
    ghost var g0 := gradient[..];
    ghost var p := VelocityPenalty(ts, maxVel);
    for k := 0 to Terms(Velocity, q)
      invariant cost == PenaltySum(p, q, k)
      invariant GainedPenaltySlope(p, q, g0, gradient[..], k)
    {
      PenaltyGainStep(p, q, g0, gradient[..], k);
      var term := VelocityTerm(q, gradient, k, ts, maxVel);
      cost := cost + term;
    }
  }

  method VelocityTerm(q: Vec, gradient: array<real>, k: nat, ts: real, maxVel: real) returns (term: real)
    requires k < Terms(Velocity, q) && gradient.Length == |q| && ts != 0.0
    modifies gradient
    ensures term == Term(VelocityPenalty(ts, maxVel), q, k)
    ensures gradient[..] == Scattered(Velocity, old(gradient[..]), k, TermWeight(VelocityPenalty(ts, maxVel), q, k))
  {
    hide Term, TermWeight, Scattered, VelocityTermOf, VelocityWeightOf;
    VelocityTermForms(q, k, ts, maxVel);
    var v := (q[k + 3] - q[k]) / ts;
    if v > maxVel {
      term := VelocityTermOf(v - maxVel, ts);
      AddVelocity(gradient, k, VelocityWeightOf(v - maxVel, ts));
    } else if v < -maxVel {
      term := VelocityTermOf(v + maxVel, ts);
      AddVelocity(gradient, k, VelocityWeightOf(v + maxVel, ts));
    } else {
      term := 0.0;
      NoScatter(Velocity, gradient[..], k, TermWeight(VelocityPenalty(ts, maxVel), q, k));
    }
  }

  method AccelerationLoop(q: Vec, gradient: array<real>, ts: real, maxAcc: real) returns (cost: real)
    requires gradient.Length == |q| && ts != 0.0
    modifies gradient
    ensures cost == PenaltySum(AccelerationPenalty(ts, maxAcc), q, Terms(Acceleration, q))
    ensures GainedPenaltySlope(AccelerationPenalty(ts, maxAcc), q, old(gradient[..]), gradient[..],
                               Terms(Acceleration, q))
  {
    hide Dot, Scattered;
    cost := 0.0;
    ghost var g0 := gradient[..];
    ghost var p := AccelerationPenalty(ts, maxAcc);
    for k := 0 to Terms(Acceleration, q)
      invariant cost == PenaltySum(p, q, k)
      invariant GainedPenaltySlope(p, q, g0, gradient[..], k)
    {
      PenaltyGainStep(p, q, g0, gradient[..], k);
      var term := AccelerationTerm(q, gradient, k, ts, maxAcc);
      cost := cost + term;
    }
  }

  method AccelerationTerm(q: Vec, gradient: array<real>, k: nat, ts: real, maxAcc: real) returns (term: real)
    requires k < Terms(Acceleration, q) && gradient.Length == |q| && ts != 0.0
    modifies gradient
    ensures term == Term(AccelerationPenalty(ts, maxAcc), q, k)
    ensures gradient[..]
            == Scattered(Acceleration, old(gradient[..]), k, TermWeight(AccelerationPenalty(ts, maxAcc), q, k))
  {
    hide Mul, Term, TermWeight, Scattered, AccelerationWeightOf;
    AccelerationTermForms(q, k, ts, maxAcc);
    var a := Mul(1.0 / ts / ts, q[k + 6] - 2.0 * q[k + 3] + q[k]);
    if a > maxAcc {
      term := Mul(a - maxAcc, a - maxAcc);
      AddAcceleration(gradient, k, AccelerationWeightOf(a - maxAcc, ts));
    } else if a < -maxAcc {
      term := Mul(a + maxAcc, a + maxAcc);
      AddAcceleration(gradient, k, AccelerationWeightOf(a + maxAcc, ts));
    } else {
      term := 0.0;
      NoScatter(Acceleration, gradient[..], k, TermWeight(AccelerationPenalty(ts, maxAcc), q, k));
    }
  }
}
