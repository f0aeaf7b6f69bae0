/**
 How fast a spline moves: between two times its value changes by no more, and no less, than the control points of
 its derivative allow.
 */
module BsplineRate {
  import opened Vectors
  import opened Bspline

  /** The range [lo, hi] of rates. */
  datatype Rates = Rates(lo: real, hi: real)

  /** A change over a stretch of length y stays within n times the rates. */
  predicate Within(d: real, n: nat, y: real, m: Rates) {
    Mul(n as real, Mul(m.lo, y)) <= d <= Mul(n as real, Mul(m.hi, y))
  }

  predicate Once(d: real, y: real, m: Rates) { Mul(m.lo, y) <= d <= Mul(m.hi, y) }

  // ---------- arithmetic of weighted changes ----------

  lemma RatioCancels(y: real, l: real)
    requires 0.0 < l && 0.0 <= y
    ensures 0.0 <= Ratio(y, l) && Mul(Ratio(y, l), l) == y
  {
  }

  lemma MulSwap(w: real, m: real, l: real)
    ensures Mul(w, Mul(m, l)) == Mul(m, Mul(w, l))
  {
  }

  lemma MulMono(w: real, a: real, b: real)
    requires 0.0 <= w && a <= b
    ensures Mul(w, a) <= Mul(w, b)
  {
    assert w * (b - a) >= 0.0;
  }

  /** A share y / l of a change over a stretch of length l is a change over a stretch of length y. */
  lemma ShareOf(d: real, l: real, y: real, m: Rates)
    requires 0.0 < l && 0.0 <= y && Once(d, l, m)
    ensures Once(Mul(Ratio(y, l), d), y, m)
  {
    var w := Ratio(y, l);
    RatioCancels(y, l);
    hide Mul, Ratio;
    MulMono(w, Mul(m.lo, l), d);
    MulMono(w, d, Mul(m.hi, l));
    MulSwap(w, m.lo, l);
    MulSwap(w, m.hi, l);
  }

  lemma Together(d: real, e: real, y: real, z: real, m: Rates)
    requires Once(d, y, m) && Once(e, z, m)
    ensures Once(d + e, y + z, m)
  {
    MulAdd(m.lo, y, z);
    MulAdd(m.hi, y, z);
    hide Mul;
  }

  lemma LerpFromLeft(a: real, b: real, w: real)
    ensures Mul(1.0 - w, a) + Mul(w, b) == a + Mul(w, b - a)
    ensures Mul(1.0 - w, a) + Mul(w, b) == b - Mul(1.0 - w, b - a)
  {
  }

  lemma Complement(x: real, lo: real, hi: real)
    requires lo < hi
    ensures 1.0 - Ratio(x - lo, hi - lo) == Ratio(hi - x, hi - lo)
  {
    QuotientIs(1.0 - (x - lo) / (hi - lo), hi - x, hi - lo);
  }

  lemma QuotientIs(q: real, b: real, l: real)
    requires 0.0 < l && q * l == b
    ensures q == b / l
  {
  }

  /** Neighbours in a row are as far apart as the rates allow, if neighbours in the row before are. */
  lemma StepsCombine(a: real, b: real, c: real, x: real, lo: real, hi: real, lo': real, hi': real, m: Rates)
    requires lo <= x <= hi && lo < hi' && lo' < hi
    requires Once(c - b, hi' - lo, m) && Once(b - a, hi - lo', m)
    ensures var w, v := Ratio(x - lo, hi' - lo), Ratio(x - lo', hi - lo');
            Once((Mul(1.0 - w, b) + Mul(w, c)) - (Mul(1.0 - v, a) + Mul(v, b)), hi - lo, m)
  {
    hide Mul, Ratio;
    var w, v := Ratio(x - lo, hi' - lo), Ratio(x - lo', hi - lo');
    ShareOf(c - b, hi' - lo, x - lo, m);
    ShareOf(b - a, hi - lo', hi - x, m);
    Complement(x, lo', hi);
    LerpFromLeft(b, c, w);
    LerpFromLeft(a, b, v);
    Together(Mul(w, c - b), Mul(1.0 - v, b - a), x - lo, hi - x, m);
  }

  // ---------- the rows of the triangle ----------

  /** Neighbouring control points that are active on span k, over the stretch of knots between them. */
  ghost predicate PointSteps(s: Spline, dim: nat, k: nat, a: nat, m: Rates)
    requires WellFormed(s, dim) && s.p <= k < |s.points| && a < dim
  {
    forall j | k - s.p < j <= k :: Once(s.points[j][a] - s.points[j - 1][a], s.u[j + s.p] - s.u[j], m)
  }

  /** Axis a of one entry of the triangle. */
  lemma EntryAt(s: Spline, dim: nat, k: nat, x: real, r: nat, i: nat, a: nat)
    requires WellFormed(s, dim) && s.p <= k < |s.points| && 1 <= r <= i <= s.p && a < dim
    ensures i + 1 + k - r < |s.u| && s.u[i + k - s.p] < s.u[i + 1 + k - r]
    ensures var w := Ratio(x - s.u[i + k - s.p], s.u[i + 1 + k - r] - s.u[i + k - s.p]);
            DeBoor(s, dim, k, x, r, i)[a]
              == Mul(1.0 - w, DeBoor(s, dim, k, x, r - 1, i - 1)[a]) + Mul(w, DeBoor(s, dim, k, x, r - 1, i)[a])
  {
    RowEntry(s, dim, k, x, r, i);
    hide DeBoor, Mul, Ratio;
  }

  /** Entry i of row r and the one before it are no further apart than the rates allow. */
  ghost predicate StepOk(s: Spline, dim: nat, k: nat, x: real, r: nat, i: nat, a: nat, m: Rates)
    requires WellFormed(s, dim) && s.p <= k < |s.points| && r < i <= s.p && a < dim
  {
    Once(DeBoor(s, dim, k, x, r, i)[a] - DeBoor(s, dim, k, x, r, i - 1)[a], s.u[i + k - r] - s.u[i + k - s.p], m)
  }

  lemma NextRowSteps(s: Spline, dim: nat, k: nat, x: real, r: nat, i: nat, a: nat, m: Rates)
    requires WellFormed(s, dim) && InSpan(s, k, x) && 1 <= r < i <= s.p && a < dim
    requires StepOk(s, dim, k, x, r - 1, i, a, m) && StepOk(s, dim, k, x, r - 1, i - 1, a, m)
    ensures StepOk(s, dim, k, x, r, i, a, m)
  {
    hide Once, DeBoor, Mul, Ratio, StrictlyIncreasing, Columns;
    EntryAt(s, dim, k, x, r, i, a);
    EntryAt(s, dim, k, x, r, i - 1, a);
    KnotsAround(s, dim, k, x, i + k - s.p, i + k - r);
    KnotOrder(s, dim, i - 1 + k - s.p, i + k - r);
    StepsCombine(DeBoor(s, dim, k, x, r - 1, i - 2)[a], DeBoor(s, dim, k, x, r - 1, i - 1)[a],
                 DeBoor(s, dim, k, x, r - 1, i)[a], x,
                 s.u[i + k - s.p], s.u[i + k - r], s.u[i - 1 + k - s.p], s.u[i + 1 + k - r], m);
  }

  lemma {:induction false} RowSteps(s: Spline, dim: nat, k: nat, x: real, r: nat, i: nat, a: nat, m: Rates)
    requires WellFormed(s, dim) && InSpan(s, k, x) && r < i <= s.p && a < dim && PointSteps(s, dim, k, a, m)
    ensures StepOk(s, dim, k, x, r, i, a, m)
    decreases r
  {
    if r == 0 {
      RowStart(s, dim, k, x, i);
      RowStart(s, dim, k, x, i - 1);
      hide DeBoor, Once;
    } else {
      hide PointSteps, StepOk, InSpan;
      RowSteps(s, dim, k, x, r - 1, i, a, m);
      RowSteps(s, dim, k, x, r - 1, i - 1, a, m);
      NextRowSteps(s, dim, k, x, r, i, a, m);
    }
  }

  lemma KnotOrder(s: Spline, dim: nat, i: nat, j: nat)
    requires WellFormed(s, dim) && i <= j < |s.u|
    ensures s.u[i] <= s.u[j] && (i < j ==> s.u[i] < s.u[j])
  {
  }

  lemma KnotOrderIfAny(s: Spline, dim: nat, i: nat, j: nat)
    requires WellFormed(s, dim)
    ensures i <= j < |s.u| ==> s.u[i] <= s.u[j]
  {
  }

  lemma KnotsAround(s: Spline, dim: nat, k: nat, x: real, lo: nat, hi: nat)
    requires WellFormed(s, dim) && InSpan(s, k, x) && lo <= k < hi < |s.u|
    ensures s.u[lo] <= x <= s.u[hi]
  {
    assert lo < k ==> s.u[lo] < s.u[k];
    assert k + 1 < hi ==> s.u[k + 1] < s.u[hi];
  }

  // ---------- two times on one span ----------

  lemma MotionSplits(w1: real, w2: real, a1: real, b1: real, a2: real, b2: real)
    ensures (Mul(1.0 - w2, a2) + Mul(w2, b2)) - (Mul(1.0 - w1, a1) + Mul(w1, b1))
         == (Mul(1.0 - w2, a2 - a1) + Mul(w2, b2 - b1)) + Mul(w2 - w1, b1 - a1)
  {
  }

  lemma RatioDifference(x: real, y: real, lo: real, l: real)
    requires 0.0 < l
    ensures Ratio(y - lo, l) - Ratio(x - lo, l) == Ratio(y - x, l)
  {
  }

  lemma OneMore(d: real, e: real, n: nat, y: real, m: Rates)
    requires Within(d, n, y, m) && Once(e, y, m)
    ensures Within(d + e, n + 1, y, m)
  {
    assert (n + 1) as real == n as real + 1.0;
    NextMultiple(n as real, Mul(m.lo, y));
    NextMultiple(n as real, Mul(m.hi, y));
    hide Mul;
  }

  lemma NextMultiple(n: real, a: real)
    ensures Mul(n + 1.0, a) == Mul(n, a) + a
  {
  }

  lemma NoMotion(y: real, m: Rates)
    ensures Within(0.0, 0, y, m)
  {
  }

  ghost predicate MoveOk(s: Spline, dim: nat, k: nat, x: real, y: real, r: nat, i: nat, a: nat, m: Rates)
    requires WellFormed(s, dim) && s.p <= k < |s.points| && r <= i <= s.p && a < dim
  {
    Within(DeBoor(s, dim, k, y, r, i)[a] - DeBoor(s, dim, k, x, r, i)[a], r, y - x, m)
  }

  lemma EntryMoves(n: nat, a1: real, b1: real, a2: real, b2: real, lo: real, l: real, x: real, y: real, m: Rates)
    requires 0.0 < l && 0.0 <= y - lo <= l && x <= y && Once(b1 - a1, l, m)
    requires Within(a2 - a1, n, y - x, m) && Within(b2 - b1, n, y - x, m)
    ensures var w1, w2 := Ratio(x - lo, l), Ratio(y - lo, l);
            Within((Mul(1.0 - w2, a2) + Mul(w2, b2)) - (Mul(1.0 - w1, a1) + Mul(w1, b1)), n + 1, y - x, m)
  {
    var w1, w2 := Ratio(x - lo, l), Ratio(y - lo, l);
    RatioInUnit(y - lo, l);
    hide Mul, Ratio;
    LerpBetween(a2 - a1, b2 - b1, w2, Mul(n as real, Mul(m.lo, y - x)), Mul(n as real, Mul(m.hi, y - x)));
    MotionSplits(w1, w2, a1, b1, a2, b2);
    ShareOf(b1 - a1, l, y - x, m);
    RatioDifference(x, y, lo, l);
    OneMore(Mul(1.0 - w2, a2 - a1) + Mul(w2, b2 - b1), Mul(w2 - w1, b1 - a1), n, y - x, m);
  }

  lemma NextRowMoves(s: Spline, dim: nat, k: nat, x: real, y: real, r: nat, i: nat, a: nat, m: Rates)
    requires WellFormed(s, dim) && InSpan(s, k, x) && InSpan(s, k, y) && x <= y && 1 <= r <= i <= s.p && a < dim
    requires MoveOk(s, dim, k, x, y, r - 1, i - 1, a, m) && MoveOk(s, dim, k, x, y, r - 1, i, a, m)
    requires StepOk(s, dim, k, x, r - 1, i, a, m)
    ensures MoveOk(s, dim, k, x, y, r, i, a, m)
  {
    hide Once, Within, DeBoor, Mul, Ratio, StrictlyIncreasing, Columns;
    EntryAt(s, dim, k, x, r, i, a);
    EntryAt(s, dim, k, y, r, i, a);
    KnotsAround(s, dim, k, y, i + k - s.p, i + 1 + k - r);
    EntryMoves(r - 1, DeBoor(s, dim, k, x, r - 1, i - 1)[a], DeBoor(s, dim, k, x, r - 1, i)[a],
               DeBoor(s, dim, k, y, r - 1, i - 1)[a], DeBoor(s, dim, k, y, r - 1, i)[a],
               s.u[i + k - s.p], s.u[i + 1 + k - r] - s.u[i + k - s.p], x, y, m);
  }

  /** Entry i of row r moves at most r times as fast as neighbours in the rows before it are apart. */
  lemma {:induction false} RowMoves(s: Spline, dim: nat, k: nat, x: real, y: real, r: nat, i: nat, a: nat, m: Rates)
    requires WellFormed(s, dim) && InSpan(s, k, x) && InSpan(s, k, y) && x <= y
    requires r <= i <= s.p && a < dim && PointSteps(s, dim, k, a, m)
    ensures MoveOk(s, dim, k, x, y, r, i, a, m)
    decreases r
  {
    if r == 0 {
      RowStart(s, dim, k, x, i);
      RowStart(s, dim, k, y, i);
      NoMotion(y - x, m);
      hide DeBoor, Within;
    } else {
      hide PointSteps, StepOk, MoveOk, InSpan;
      RowMoves(s, dim, k, x, y, r - 1, i - 1, a, m);
      RowMoves(s, dim, k, x, y, r - 1, i, a, m);
      RowSteps(s, dim, k, x, r - 1, i, a, m);
      NextRowMoves(s, dim, k, x, y, r, i, a, m);
    }
  }

  // ---------- from one span to the next ----------

  /** At the knot between two spans both triangles hold the same entries, shifted by one. */
  lemma {:induction false} SharedEntries(s: Spline, dim: nat, k: nat, x: real, r: nat, i: nat)
    requires WellFormed(s, dim) && s.p <= k && k + 1 < |s.points| && r < i <= s.p
    ensures DeBoor(s, dim, k + 1, x, r, i - 1) == DeBoor(s, dim, k, x, r, i)
    decreases r
  {
    hide DeBoor, Ratio, Lerp, StrictlyIncreasing, Columns;
    if r == 0 {
      RowStart(s, dim, k + 1, x, i - 1);
      RowStart(s, dim, k, x, i);
    } else {
      SharedEntries(s, dim, k, x, r - 1, i - 1);
      SharedEntries(s, dim, k, x, r - 1, i);
      RowEntry(s, dim, k + 1, x, r, i - 1);
      RowEntry(s, dim, k, x, r, i);
    }
  }

  lemma LerpEnds(a: Vec, b: Vec)
    requires |a| == |b|
    ensures Lerp(a, b, 0.0) == a && Lerp(a, b, 1.0) == b
  {
    forall j | 0 <= j < |a|
      ensures Lerp(a, b, 0.0)[j] == a[j] && Lerp(a, b, 1.0)[j] == b[j]
    {
      MulZero(a[j]);
      MulZero(b[j]);
      OneTimes(a[j], b[j]);
    }
  }

  lemma OneTimes(a: real, b: real)
    ensures Mul(1.0, a) == a && Mul(1.0, b) == b
  {
  }

  lemma RatioEnds(l: real)
    requires 0.0 < l
    ensures Ratio(l, l) == 1.0 && Ratio(0.0, l) == 0.0
  {
  }

  /** At the right knot of a span the last row takes its right neighbour, at the left knot its left one. */
  lemma AtRightKnot(s: Spline, dim: nat, k: nat)
    requires WellFormed(s, dim) && 1 <= s.p <= k < |s.points|
    ensures DeBoor(s, dim, k, s.u[k + 1], s.p, s.p) == DeBoor(s, dim, k, s.u[k + 1], s.p - 1, s.p)
  {
    hide DeBoor, Lerp, Ratio, StrictlyIncreasing, Columns;
    var x, p := s.u[k + 1], s.p;
    RowEntry(s, dim, k, x, p, p);
    LerpEnds(DeBoor(s, dim, k, x, p - 1, p - 1), DeBoor(s, dim, k, x, p - 1, p));
    RatioEnds(s.u[k + 1] - s.u[k]);
  }

  lemma AtLeftKnot(s: Spline, dim: nat, k: nat)
    requires WellFormed(s, dim) && 1 <= s.p <= k < |s.points|
    ensures DeBoor(s, dim, k, s.u[k], s.p, s.p) == DeBoor(s, dim, k, s.u[k], s.p - 1, s.p - 1)
  {
    hide DeBoor, Lerp, Ratio, StrictlyIncreasing, Columns;
    var x, p := s.u[k], s.p;
    RowEntry(s, dim, k, x, p, p);
    LerpEnds(DeBoor(s, dim, k, x, p - 1, p - 1), DeBoor(s, dim, k, x, p - 1, p));
    RatioEnds(s.u[k + 1] - s.u[k]);
  }

  /** The spline has no jump at a knot. */
  lemma ContinuousAtKnot(s: Spline, dim: nat, k: nat)
    requires WellFormed(s, dim) && 1 <= s.p <= k && k + 1 < |s.points|
    ensures DeBoor(s, dim, k, s.u[k + 1], s.p, s.p) == DeBoor(s, dim, k + 1, s.u[k + 1], s.p, s.p)
  {
    AtRightKnot(s, dim, k);
    AtLeftKnot(s, dim, k + 1);
    SharedEntries(s, dim, k, s.u[k + 1], s.p - 1, s.p);
    hide DeBoor;
  }

  /** Neighbouring control points, over the stretch of knots between them, anywhere on the spline. */
  ghost predicate AllSteps(s: Spline, dim: nat, a: nat, m: Rates)
    requires WellFormed(s, dim) && a < dim
  {
    forall j | 0 < j < |s.points| :: Once(s.points[j][a] - s.points[j - 1][a], s.u[j + s.p] - s.u[j], m)
  }

  lemma WithinTogether(d: real, e: real, n: nat, y: real, z: real, m: Rates)
    requires Within(d, n, y, m) && Within(e, n, z, m)
    ensures Within(d + e, n, y + z, m)
  {
    Distribute(n as real, m.lo, y, z);
    Distribute(n as real, m.hi, y, z);
    hide Mul;
  }

  lemma Distribute(n: real, c: real, y: real, z: real)
    ensures Mul(n, Mul(c, y + z)) == Mul(n, Mul(c, y)) + Mul(n, Mul(c, z))
  {
  }

  lemma OneSpanMoves(s: Spline, dim: nat, k: nat, x: real, y: real, a: nat, m: Rates)
    requires WellFormed(s, dim) && InSpan(s, k, x) && InSpan(s, k, y) && x <= y && a < dim && AllSteps(s, dim, a, m)
    ensures Within(DeBoor(s, dim, k, y, s.p, s.p)[a] - DeBoor(s, dim, k, x, s.p, s.p)[a], s.p, y - x, m)
  {
    RowMoves(s, dim, k, x, y, s.p, s.p, a, m);
    hide Within, DeBoor;
  }

  lemma ToNextKnot(s: Spline, dim: nat, k: nat, x: real, k': nat, y: real)
    requires WellFormed(s, dim) && InSpan(s, k, x) && InSpan(s, k', y) && k < k'
    ensures x <= s.u[k + 1] <= y && InSpan(s, k, s.u[k + 1]) && InSpan(s, k + 1, s.u[k + 1])
  {
    KnotOrder(s, dim, k + 1, k');
  }

  /** Two times on any two spans. */
  lemma {:induction false} SpansMove(s: Spline, dim: nat, k: nat, x: real, k': nat, y: real, a: nat, m: Rates)
    requires WellFormed(s, dim) && s.p >= 1 && InSpan(s, k, x) && InSpan(s, k', y) && k <= k' && x <= y
    requires a < dim && AllSteps(s, dim, a, m)
    ensures Within(DeBoor(s, dim, k', y, s.p, s.p)[a] - DeBoor(s, dim, k, x, s.p, s.p)[a], s.p, y - x, m)
    decreases k' - k
  {
    if k == k' {
      OneSpanMoves(s, dim, k, x, y, a, m);
    } else {
      ToNextKnot(s, dim, k, x, k', y);
      var knot := s.u[k + 1];
      OneSpanMoves(s, dim, k, x, knot, a, m);
      ContinuousAtKnot(s, dim, k);
      SpansMove(s, dim, k + 1, knot, k', y, a, m);
      hide DeBoor, Within, AllSteps, StrictlyIncreasing, Columns;
      WithinTogether(DeBoor(s, dim, k + 1, knot, s.p, s.p)[a] - DeBoor(s, dim, k, x, s.p, s.p)[a],
                     DeBoor(s, dim, k', y, s.p, s.p)[a] - DeBoor(s, dim, k + 1, knot, s.p, s.p)[a],
                     s.p, knot - x, y - knot, m);
    }
  }

  // ---------- the derivative spline is the rate of change ----------

  ghost predicate AxisWithin(s: Spline, dim: nat, a: nat, lo: real, hi: real)
    requires WellFormed(s, dim) && a < dim
  {
    forall i | 0 <= i < |s.points| :: lo <= s.points[i][a] <= hi
  }

  lemma DerivativeStep(p: nat, d: real, l: real, lo: real, hi: real)
    requires p >= 1 && 0.0 < l && lo <= Ratio(Mul(p as real, d), l) <= hi
    ensures Once(d, l, Rates(lo / p as real, hi / p as real))
  {
    var n := p as real;
    var q := Mul(n, d) / l;
    assert q * l == n * d;
    MulMono(l, lo, q);
    MulMono(l, q, hi);
    assert n * Mul(lo / n, l) == Mul(l, lo) && n * Mul(hi / n, l) == Mul(l, hi) && Mul(l, q) == n * d;
    DivideOut(n, Mul(lo / n, l), d);
    DivideOut(n, d, Mul(hi / n, l));
  }

  lemma DivideOut(n: real, a: real, b: real)
    requires 0.0 < n && n * a <= n * b
    ensures a <= b
  {
    if b < a {
      Strictly(n, a, b);
    }
  }

  lemma Strictly(n: real, a: real, b: real)
    requires 0.0 < n && b < a
    ensures n * b < n * a
  {
    ProductPositive(n, a - b);
  }

  lemma DerivativeGivesSteps(s: Spline, dim: nat, a: nat, lo: real, hi: real)
    requires WellFormed(s, dim) && s.p >= 1 && a < dim && AxisWithin(Derivative(s, dim), dim, a, lo, hi)
    ensures AllSteps(s, dim, a, Rates(lo / s.p as real, hi / s.p as real))
  {
    hide Mul, Ratio, Once;
    var d := Derivative(s, dim);
    forall j | 0 < j < |s.points|
      ensures Once(s.points[j][a] - s.points[j - 1][a], s.u[j + s.p] - s.u[j],
                   Rates(lo / s.p as real, hi / s.p as real))
    {
      assert d.points[j - 1] == DerivativePoint(s, j - 1);
      DerivativeStep(s.p, s.points[j][a] - s.points[j - 1][a], s.u[j + s.p] - s.u[j], lo, hi);
    }
  }

  lemma TimesOver(p: nat, c: real, y: real)
    requires p >= 1
    ensures Mul(p as real, Mul(c / p as real, y)) == Mul(c, y)
  {
    var n := p as real;
    assert n * (c / n) == c;
    assert n * ((c / n) * y) == (n * (c / n)) * y;
  }

  lemma FindSpanOrder(s: Spline, dim: nat, k: nat, x: real, k': nat, y: real)
    requires WellFormed(s, dim) && InSpan(s, k, x) && InSpan(s, k', y) && x < y
    ensures k <= k'
  {
    KnotOrderIfAny(s, dim, k' + 1, k);
  }

  /**
   Between any two times of the spline's span the value moves within the range of the derivative's control points:
   the derivative spline is its rate of change.
   */
  lemma RateWithin(s: Spline, dim: nat, a: nat, lo: real, hi: real, t1: real, t2: real)
    requires WellFormed(s, dim) && s.p >= 1 && a < dim && AxisWithin(Derivative(s, dim), dim, a, lo, hi)
    requires s.u[s.p] <= t1 <= t2 <= s.u[|s.points|]
    ensures Mul(lo, t2 - t1) <= Evaluate(s, dim, t2)[a] - Evaluate(s, dim, t1)[a] <= Mul(hi, t2 - t1)
  {
    var m := Rates(lo / s.p as real, hi / s.p as real);
    TimesOver(s.p, lo, t2 - t1);
    TimesOver(s.p, hi, t2 - t1);
    if t1 < t2 {
      DerivativeGivesSteps(s, dim, a, lo, hi);
      var k, k' := FindSpan(s, t1, s.p), FindSpan(s, t2, s.p);
      FindSpanOrder(s, dim, k, t1, k', t2);
      hide Mul, DeBoor, AllSteps, AxisWithin;
      SpansMove(s, dim, k, t1, k', t2, a, m);
    } else {
      MulZero(lo);
      MulZero(hi);
    }
  }

  lemma {:induction false} ClippedRate(s: Spline, dim: nat, a: nat, limit: real, t1: real, t2: real)
    requires WellFormed(s, dim) && s.p >= 1 && a < dim && t1 <= t2 && 0.0 <= limit
    requires AxisWithin(Derivative(s, dim), dim, a, -limit, limit)
    ensures Bspline.Abs(Evaluate(s, dim, t2)[a] - Evaluate(s, dim, t1)[a]) <= Mul(limit, t2 - t1)
  {
    var x, y := ClipTime(s, t1), ClipTime(s, t2);
    ClipTimeBounds(s, dim, t1);
    ClipTimeBounds(s, dim, t2);
    hide DeBoor, AxisWithin;
    RateWithin(s, dim, a, -limit, limit, x, y);
    assert Mul(-limit, y - x) == -Mul(limit, y - x);
    MulMono(limit, y - x, t2 - t1);
    assert Evaluate(s, dim, x) == Evaluate(s, dim, t1) && Evaluate(s, dim, y) == Evaluate(s, dim, t2);
  }

  lemma LimitedAxis(s: Spline, dim: nat, limit: real, a: nat)
    requires WellFormed(s, dim) && dim >= 3 && PointsWithin(s, dim, limit) && a < 3
    ensures AxisWithin(s, dim, a, -limit, limit) && 0.0 <= limit
  {
    assert Bspline.Abs(s.points[0][a]) <= limit;
    forall i | 0 <= i < |s.points|
      ensures -limit <= s.points[i][a] <= limit
    {
      assert Bspline.Abs(s.points[i][a]) <= limit;
    }
  }

  /**
   Between any two times a feasible spline moves no faster than the velocity limit, and its velocity changes no faster
   than the acceleration limit.
   */
  lemma FeasibleMovesWithin(s: Spline, dim: nat, velLimit: real, accLimit: real, t1: real, t2: real, a: nat)
    requires WellFormed(s, dim) && dim >= 3 && s.p >= 2 && a < 3 && Feasible(s, dim, velLimit, accLimit)
    ensures var d := Derivative(s, dim);
            && Bspline.Abs(Evaluate(s, dim, t2)[a] - Evaluate(s, dim, t1)[a]) <= Mul(velLimit, Bspline.Abs(t2 - t1))
            && Bspline.Abs(Evaluate(d, dim, t2)[a] - Evaluate(d, dim, t1)[a]) <= Mul(accLimit, Bspline.Abs(t2 - t1))
  {
    var d := Derivative(s, dim);
    LimitedAxis(d, dim, velLimit, a);
    LimitedAxis(Derivative(d, dim), dim, accLimit, a);
    hide Mul, Evaluate, AxisWithin, PointsWithin;
    if t1 <= t2 {
      ClippedRate(s, dim, a, velLimit, t1, t2);
      ClippedRate(d, dim, a, accLimit, t1, t2);
    } else {
      ClippedRate(s, dim, a, velLimit, t2, t1);
      ClippedRate(d, dim, a, accLimit, t2, t1);
    }
  }
}
