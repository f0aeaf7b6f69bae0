/**
 lbfgs_optimize over exact reals and a pure objective: descent over the whole run.
 */
module Lbfgs {
  import opened Modular
  import opened Options
  import opened Vectors
  import opened LbfgsDirection
  import opened LineSearch

  /** The parameter checks, in order. */
  function CheckParam(n: int, p: Param): Option<Status> {
    if n <= 0 then Some(InvalidN)
    else if p.memSize <= 0 then Some(InvalidMemSize)
    else if p.gEpsilon < 0.0 then Some(InvalidGEpsilon)
    else if p.past < 0 then Some(InvalidTestPeriod)
    else if p.delta < 0.0 then Some(InvalidDelta)
    else if p.minStep < 0.0 then Some(InvalidMinStep)
    else if p.maxStep < p.minStep then Some(InvalidMaxStep)
    else if p.fDecCoeff < 0.0 then Some(InvalidFDecCoeff)
    else if p.sCurvCoeff <= p.fDecCoeff || 1.0 <= p.sCurvCoeff then Some(InvalidSCurvCoeff)
    else if p.xtol < 0.0 then Some(InvalidXtol)
    else if p.maxLineSearch <= 0 then Some(InvalidMaxLineSearch)
    else None
  }

  /** |g| / max(1, |x|) <= eps, squared. */
  predicate SmallGradient(x: Vec, g: Vec, eps: real) {
    Dot(g, g) <= Mul(Mul(eps, eps), Max(1.0, Dot(x, x)))
  }

  /** |(past - fx) / fx| < delta, where a zero fx compares false. */
  predicate Stalled(past: real, fx: real, delta: real) {
    fx != 0.0 && Abs((past - fx) / fx) < delta
  }

  // ---------- the argument of one iteration ----------

  /** The curvature test of the line search makes the new pair curved. */
  lemma WolfeGivesCurvedPair(ev: Objective, xp: Vec, d: Vec, p: Param, stp: real)
    requires |xp| == |d| && Evaluates(ev, |xp|)
    requires StrongWolfe(ev, xp, d, p, stp) && stp > 0.0
    requires Slope(ev, xp, d, 0.0) < 0.0 && p.sCurvCoeff < 1.0
    ensures var x := Axpy(xp, stp, d);
            Dot(Sub(ev.grad(x), ev.grad(xp)), Sub(x, xp)) > 0.0
  {
    hide Mul, Dot;
    var x := Axpy(xp, stp, d);
    var y := Sub(ev.grad(x), ev.grad(xp));
    AxpyZero(xp, d);
    StepIsScaled(xp, stp, d);
    DotComm(y, Scale(stp, d));
    DotScale(stp, d, y);
    DotComm(d, y);
    DotSub(ev.grad(x), ev.grad(xp), d);
    SlopeRises(Slope(ev, xp, d, 0.0), Slope(ev, xp, d, stp), p.sCurvCoeff);
    ProductPositive(stp, Dot(y, d));
  }

  lemma SlopeRises(d0: real, d1: real, c: real)
    requires d0 < 0.0 && c < 1.0 && Abs(d1) <= Mul(c, -d0)
    ensures d1 > d0
  {
    MulMonotone(c, 1.0, -d0);
  }

  lemma StepIsScaled(xp: Vec, stp: real, d: Vec)
    requires |xp| == |d|
    ensures Sub(Axpy(xp, stp, d), xp) == Scale(stp, d)
  {
  }

  /** Sufficient decrease: the objective does not rise, and falls when the coefficient is positive. */
  lemma WolfeDecreases(ev: Objective, xp: Vec, d: Vec, p: Param, stp: real)
    requires |xp| == |d| && Evaluates(ev, |xp|)
    requires StrongWolfe(ev, xp, d, p, stp) && stp > 0.0
    requires Slope(ev, xp, d, 0.0) < 0.0 && 0.0 <= p.fDecCoeff
    ensures ev.value(Axpy(xp, stp, d)) <= ev.value(xp)
    ensures 0.0 < p.fDecCoeff ==> ev.value(Axpy(xp, stp, d)) < ev.value(xp)
  {
    var d0 := Slope(ev, xp, d, 0.0);
    AxpyZero(xp, d);
    DecreaseTerm(stp, p.fDecCoeff, d0);
  }

  lemma DecreaseTerm(stp: real, c: real, d0: real)
    requires stp > 0.0 && d0 < 0.0 && 0.0 <= c
    ensures Mul(stp, Mul(c, d0)) <= 0.0
    ensures 0.0 < c ==> Mul(stp, Mul(c, d0)) < 0.0
  {
    if 0.0 < c {
      ProductPositive(c, -d0);
      assert Mul(c, -d0) == -Mul(c, d0);
      ProductPositive(stp, -Mul(c, d0));
      assert Mul(stp, -Mul(c, d0)) == -Mul(stp, Mul(c, d0));
    } else {
      assert Mul(c, d0) == 0.0;
    }
  }

  /** The steepest descent direction and every two-loop direction go downhill. */
  lemma DirectionDescends(pairs: seq<Pair>, gamma: real, g: Vec)
    requires AllShaped(pairs, |g|) && AllCurved(pairs, |g|) && gamma > 0.0 && !IsZero(g)
    ensures Dot(g, Apply(pairs, gamma, Neg(g))) < 0.0
  {
    var q := Neg(g);
    assert !IsZero(q) by {
      var i :| 0 <= i < |g| && g[i] != 0.0;
      assert q[i] != 0.0;
    }
    ApplyPositiveDefinite(pairs, gamma, q);
    DotComm(Apply(pairs, gamma, q), q);
    DotNeg(g, Apply(pairs, gamma, q));
  }

  lemma SteepestDescends(g: Vec)
    requires !IsZero(g)
    ensures Dot(g, Neg(g)) < 0.0
  {
    DotSelf(g);
    DotComm(g, Neg(g));
    DotNeg(g, g);
  }

  /** A gradient that fails the convergence test is not zero. */
  lemma LargeGradientNonZero(x: Vec, g: Vec, eps: real)
    requires !SmallGradient(x, g, eps)
    ensures !IsZero(g)
  {
    DotSelf(g);
    SquareSign(eps);
    var m := Max(1.0, Dot(x, x));
    if eps != 0.0 {
      ProductPositive(Mul(eps, eps), m);
    }
  }

  /** ys / yy is positive for a curved pair. */
  lemma ScalingPositive(p: Pair, n: nat)
    requires Curved(p, n)
    ensures Dot(p.y, p.y) > 0.0 && p.ys / Dot(p.y, p.y) > 0.0
  {
    DotSelf(p.y);
    if IsZero(p.y) {
      DotZero(p.y, p.s);
    }
    QuotientPositive(p.ys, Dot(p.y, p.y));
  }

  // ---------- the memory ----------

  ghost predicate AgreesOn(x: Vec, y: Vec, frozen: set<nat>)
    requires |x| == |y|
  {
    forall i | i in frozen && i < |x| :: x[i] == y[i]
  }

  ghost predicate ZeroOn(x: Vec, frozen: set<nat>) {
    forall i | i in frozen :: ZeroAt(x, i)
  }

  /** The gradient never has a component in a frozen coordinate. */
  ghost predicate Freezes(ev: Objective, n: nat, frozen: set<nat>) {
    forall x: Vec | |x| == n :: ZeroOn(ev.grad(x), frozen)
  }

  ghost predicate Stored(p: Pair, n: nat, frozen: set<nat>) {
    Shaped(p, n) && Curved(p, n) && ZeroOn(p.s, frozen) && ZeroOn(p.y, frozen)
  }

  ghost predicate Memory(ring: seq<Pair>, end: nat, count: nat, n: nat, frozen: set<nat>) {
    && end < |ring| && count <= |ring|
    && forall i | 0 <= i < count :: Stored(Recent(ring, end, count)[i], n, frozen)
  }

  /** Storing one more pair keeps the memory, whether the ring is full or not. */
  lemma MemoryAfterStore(ring: seq<Pair>, end: nat, k: nat, p: Pair, n: nat, frozen: set<nat>)
    requires 0 < k && |ring| > 0
    requires Memory(ring, end, if |ring| <= k - 1 then |ring| else k - 1, n, frozen) && Stored(p, n, frozen)
    ensures Memory(ring[end := p], (end + 1) % |ring|, if |ring| <= k then |ring| else k, n, frozen)
  {
    hide Stored;
    var m := |ring|;
    ModOnce(end + 1, m);
    if k <= m {
      RecentAfterStore(ring, end, k - 1, p);
    } else {
      RecentAfterOverwrite(ring, end, p);
    }
  }

  lemma MemoryShapes(ring: seq<Pair>, end: nat, count: nat, n: nat, frozen: set<nat>)
    requires Memory(ring, end, count, n, frozen)
    ensures AllShaped(Recent(ring, end, count), n) && AllCurved(Recent(ring, end, count), n)
  {
    var pairs := Recent(ring, end, count);
    forall i | 0 <= i < count
      ensures Shaped(pairs[i], n) && Curved(pairs[i], n)
    {
      assert Stored(pairs[i], n, frozen);
    }
  }

  /** The next direction descends and has no component in a frozen coordinate. */
  lemma NextDirection(ring: seq<Pair>, end: nat, count: nat, gamma: real, g: Vec, frozen: set<nat>)
    requires Memory(ring, end, count, |g|, frozen) && gamma > 0.0 && !IsZero(g) && ZeroOn(g, frozen)
    requires AllShaped(Recent(ring, end, count), |g|)
    ensures var d := Apply(Recent(ring, end, count), gamma, Neg(g));
            Dot(g, d) < 0.0 && ZeroOn(d, frozen)
  {
    var pairs := Recent(ring, end, count);
    MemoryShapes(ring, end, count, |g|, frozen);
    DirectionDescends(pairs, gamma, g);
    forall i | i in frozen
      ensures ZeroAt(Apply(pairs, gamma, Neg(g)), i)
    {
      assert ZeroAt(g, i);
      forall k | 0 <= k < |pairs|
        ensures ZeroAt(pairs[k].s, i) && ZeroAt(pairs[k].y, i)
      {
        assert Stored(pairs[k], |g|, frozen);
      }
      ApplyKeepsZero(pairs, gamma, Neg(g), i);
    }
  }

  /** A step along a direction without frozen components leaves the frozen coordinates alone. */
  lemma StepKeepsFrozen(xp: Vec, a: real, d: Vec, x0: Vec, frozen: set<nat>)
    requires |xp| == |d| == |x0| && ZeroOn(d, frozen) && AgreesOn(xp, x0, frozen)
    ensures AgreesOn(Axpy(xp, a, d), x0, frozen)
  {
    forall i | i in frozen && i < |xp|
      ensures Axpy(xp, a, d)[i] == x0[i]
    {
      assert ZeroAt(d, i);
      assert Mul(a, 0.0) == 0.0;
    }
  }

  /** The new pair after an accepted step is worth storing. */
  lemma NewPairStored(ev: Objective, xp: Vec, d: Vec, p: Param, stp: real, frozen: set<nat>)
    requires |xp| == |d| && Evaluates(ev, |xp|) && Freezes(ev, |xp|, frozen) && ZeroOn(d, frozen)
    requires StrongWolfe(ev, xp, d, p, stp) && stp > 0.0
    requires Slope(ev, xp, d, 0.0) < 0.0 && p.sCurvCoeff < 1.0
    ensures var x := Axpy(xp, stp, d);
            var s, y := Sub(x, xp), Sub(ev.grad(x), ev.grad(xp));
            Stored(Pair(s, y, Dot(y, s)), |xp|, frozen)
  {
    hide Dot;
    var x := Axpy(xp, stp, d);
    var s, y := Sub(x, xp), Sub(ev.grad(x), ev.grad(xp));
    WolfeGivesCurvedPair(ev, xp, d, p, stp);
    StepKeepsFrozen(xp, stp, d, xp, frozen);
    forall i | i in frozen
      ensures ZeroAt(s, i) && ZeroAt(y, i)
    {
      assert ZeroOn(ev.grad(x), frozen) && ZeroOn(ev.grad(xp), frozen);
      assert ZeroAt(ev.grad(x), i) && ZeroAt(ev.grad(xp), i);
    }
  }

  // ---------- the run ----------

  /** The accepted points, oldest first: each one no worse than the one before. */
  ghost predicate Descends(ev: Objective, points: seq<Vec>, strictly: bool) {
    forall i | 0 < i < |points| ::
      && ev.value(points[i]) <= ev.value(points[i - 1])
      && (strictly ==> ev.value(points[i]) < ev.value(points[i - 1]))
  }

  /** Every later accepted point is below every earlier one. */
  lemma {:induction false} DescendsThroughout(ev: Objective, points: seq<Vec>, strictly: bool, i: nat, j: nat)
    requires Descends(ev, points, strictly) && i < j < |points|
    ensures ev.value(points[j]) <= ev.value(points[i])
    ensures strictly ==> ev.value(points[j]) < ev.value(points[i])
    decreases j
  {
    if i < j - 1 {
      DescendsThroughout(ev, points, strictly, i, j - 1);
    }
  }

  /** What one pass of the main loop starts from. */
  ghost predicate Ready(ev: Objective, x: Vec, fx: real, g: Vec, d: Vec, step: real, n: nat, frozen: set<nat>,
                        x0: Vec) {
    && |x| == |g| == |d| == |x0| == n && Evaluates(ev, n) && Freezes(ev, n, frozen)
    && fx == ev.value(x) && g == ev.grad(x)
    && Dot(g, d) < 0.0 && ZeroOn(d, frozen) && AgreesOn(x, x0, frozen)
    && 0.0 < step
  }

  ghost predicate AllAgree(evals: seq<Vec>, x0: Vec, frozen: set<nat>) {
    forall i | 0 <= i < |evals| :: |evals[i]| == |x0| && AgreesOn(evals[i], x0, frozen)
  }

  /** The bound on the step, from the callback when there is one. */
  function StepBound(bound: Option<(Vec, Vec) -> real>, xp: Vec, d: Vec, step: real, maxStep: real): (real, real) {
    if bound.None? then (maxStep, step)
    else
      var b := bound.value(xp, d);
      var stepMax := if b < maxStep then b else maxStep;
      (stepMax, if step >= stepMax then stepMax / 2.0 else step)
  }

  lemma StepBoundSafe(bound: Option<(Vec, Vec) -> real>, xp: Vec, d: Vec, step: real, maxStep: real)
    requires 0.0 < step && 0.0 <= maxStep
    ensures var (stepMax, stp) := StepBound(bound, xp, d, step, maxStep);
            && (0.0 < stp ==> 0.0 <= stepMax) && (bound.None? ==> stp == step)
            && stepMax <= maxStep && (bound.Some? ==> stepMax <= bound.value(xp, d))
            && (bound.Some? && 0.0 < stepMax ==> stp < stepMax) && stp <= step
  {
  }

  lemma SlopeAtStart(ev: Objective, xp: Vec, d: Vec)
    requires |xp| == |d| && Evaluates(ev, |xp|)
    ensures Slope(ev, xp, d, 0.0) == Dot(ev.grad(xp), d)
  {
    AxpyZero(xp, d);
  }

  lemma CheckedParam(n: int, p: Param)
    requires CheckParam(n, p).None?
    ensures 0.0 <= p.minStep <= p.maxStep && p.sCurvCoeff < 1.0 && 0 < p.maxLineSearch && 0 < p.memSize && 0 <= p.past
  {
  }

  /** A step that keeps to min_step, max_step and the bound of the callback, as far as they leave room. */
  predicate InBound(bound: Option<(Vec, Vec) -> real>, x: Vec, d: Vec, p: Param, a: real) {
    bound.None? || p.minStep <= bound.value(x, d)
    ==> p.minStep <= a <= p.maxStep && (bound.Some? ==> a <= bound.value(x, d))
  }

  lemma FoundInBound(ev: Objective, bound: Option<(Vec, Vec) -> real>, x: Vec, d: Vec, step: real, p: Param,
                     trials: seq<Trial>)
    requires |x| == |d| && Evaluates(ev, |x|) && |trials| > 0 && p.minStep <= p.maxStep
    requires var l := Limits(p.minStep, StepBound(bound, x, d, step, p.maxStep).0);
             Ends(Found, ev, x, d, trials, l, p) && AllPlaced(trials, l, p)
    ensures InBound(bound, x, d, p, trials[|trials| - 1].stp)
  {
    var l := Limits(p.minStep, StepBound(bound, x, d, step, p.maxStep).0);
    hide Ends, AllPlaced;
    if l.lo <= l.hi {
      FoundWithin(ev, x, d, trials, l, p);
    }
  }

  /** The first point that a line search evaluates. */
  function FirstPoint(bound: Option<(Vec, Vec) -> real>, x: Vec, d: Vec, step: real, p: Param): Vec
    requires |x| == |d|
  {
    var (stepMax, stp) := StepBound(bound, x, d, step, p.maxStep);
    Axpy(x, FirstTrial(stp, p.minStep, stepMax), d)
  }

  /** The first trial lies inside the limits and satisfies the strong Wolfe conditions. */
  ghost predicate GoodFirst(ev: Objective, bound: Option<(Vec, Vec) -> real>, x: Vec, d: Vec, step: real, p: Param)
    requires |x| == |d| && Evaluates(ev, |x|)
  {
    var (stepMax, stp) := StepBound(bound, x, d, step, p.maxStep);
    var a := FirstTrial(stp, p.minStep, stepMax);
    0.0 < stp && p.minStep < a < stepMax && 1 < p.maxLineSearch && StrongWolfe(ev, x, d, p, a)
  }

  lemma GoodFirstPositive(ev: Objective, bound: Option<(Vec, Vec) -> real>, x: Vec, d: Vec, step: real, p: Param)
    requires |x| == |d| && Evaluates(ev, |x|)
    ensures GoodFirst(ev, bound, x, d, step, p) ==> 0.0 < StepBound(bound, x, d, step, p.maxStep).1
  {
  }

  lemma GoodFirstTaken(ev: Objective, bound: Option<(Vec, Vec) -> real>, x: Vec, d: Vec, step: real, p: Param,
                       verdict: Verdict, trials: seq<Trial>)
    requires |x| == |d| && Evaluates(ev, |x|) && GoodFirst(ev, bound, x, d, step, p)
    requires var (stepMax, stp) := StepBound(bound, x, d, step, p.maxStep);
             Ends(verdict, ev, x, d, trials, Limits(p.minStep, stepMax), p)
             && StartsAt(trials, stp, Limits(p.minStep, stepMax))
    requires |trials| > 0 && verdict != Failed(Canceled)
    ensures verdict == Found && |trials| == 1
  {
    var (stepMax, stp) := StepBound(bound, x, d, step, p.maxStep);
    FirstGoodStepTaken(verdict, ev, x, d, trials, Limits(p.minStep, stepMax), p);
  }

  ghost function TrialPoints(xp: Vec, trials: seq<Trial>, d: Vec): (points: seq<Vec>)
    requires |xp| == |d|
    ensures |points| == |trials|
    ensures |points| > 0 ==> points[0] == Axpy(xp, trials[0].stp, d)
    ensures |points| > 0 ==> points[|points| - 1] == Axpy(xp, trials[|points| - 1].stp, d)
  {
    seq(|trials|, i requires 0 <= i < |trials| => Axpy(xp, trials[i].stp, d))
  }

  lemma TrialPointsAgree(xp: Vec, trials: seq<Trial>, d: Vec, x0: Vec, frozen: set<nat>)
    requires |xp| == |d| == |x0| && ZeroOn(d, frozen) && AgreesOn(xp, x0, frozen)
    ensures AllAgree(TrialPoints(xp, trials, d), x0, frozen)
  {
    forall i | 0 <= i < |trials|
      ensures AgreesOn(TrialPoints(xp, trials, d)[i], x0, frozen)
    {
      StepKeepsFrozen(xp, trials[i].stp, d, x0, frozen);
    }
  }

  /** One line search of the main loop; x and g are left at the last point tried. */
  method SearchAlong(ev: Objective, x: array<real>, fx: real, g: array<real>, d: Vec, step: real,
                     bound: Option<(Vec, Vec) -> real>, p: Param, watched: bool, ghost frozen: set<nat>, ghost x0: Vec)
    returns (verdict: Verdict, f: real, stp: real, ghost points: seq<Vec>)
    requires x.Length == g.Length == |d| && x != g && CheckParam(|d|, p).None?
    requires Ready(ev, x[..], fx, g[..], d, step, |d|, frozen, x0)
    modifies x, g
    ensures f == ev.value(x[..]) && g[..] == ev.grad(x[..]) && AllAgree(points, x0, frozen)
    ensures x[..] == if |points| == 0 then old(x[..]) else points[|points| - 1]
    ensures |points| <= p.maxLineSearch && verdict != Continue
    ensures verdict.Failed? ==> SearchFailure(verdict.status)
    ensures verdict == Found ==> StrongWolfe(ev, old(x[..]), d, p, stp) && x[..] == Axpy(old(x[..]), stp, d)
    ensures verdict == Found ==> 0.0 < stp && 0 < |points| < p.maxLineSearch
    ensures verdict == Found ==> InBound(bound, old(x[..]), d, p, stp)
    ensures |points| > 0 ==> points[0] == FirstPoint(bound, old(x[..]), d, step, p)
    ensures |points| == 0 && bound.None? ==> verdict == Failed(Canceled)
    ensures !watched ==> verdict != Failed(Canceled)
    ensures !watched && GoodFirst(ev, bound, old(x[..]), d, step, p) ==> verdict == Found && |points| == 1
  {
    CheckedParam(|d|, p);
    SlopeAtStart(ev, x[..], d);
    GoodFirstPositive(ev, bound, x[..], d, step, p);
    hide Mul, Axpy, Dot, FirstTrial, StepBound, StrongWolfe, Slope, Phi, GoodSearch, CheckParam, Freezes;
    hide GoodFirst, Ends, AllPlaced, InBound;
    var xp := x[..];
    var (stepMax, stp0) := StepBound(bound, xp, d, step, p.maxStep);
    StepBoundSafe(bound, xp, d, step, p.maxStep);
    ghost var trials: seq<Trial>;
    verdict, f, stp, trials := Search(ev, x, fx, g, d, stp0, xp, p.minStep, stepMax, p, watched);
    points := TrialPoints(xp, trials, d);
    TrialPointsAgree(xp, trials, d, x0, frozen);
    if !watched && GoodFirst(ev, bound, xp, d, step, p) {
      GoodFirstTaken(ev, bound, xp, d, step, p, verdict, trials);
    }
    if verdict == Found {
      FoundInBound(ev, bound, xp, d, step, p, trials);
      WolfeStepPositive(ev, xp, d, p, stp);
    }
  }

  /** The same with the revert on failure: `last` is the point whose value is kept even then. */
  method SearchOnce(ev: Objective, x: array<real>, fx: real, g: array<real>, d: Vec, step: real,
                    bound: Option<(Vec, Vec) -> real>, p: Param, watched: bool, ghost frozen: set<nat>, ghost x0: Vec)
    returns (error: Option<Status>, f: real, ghost stp: real, ghost points: seq<Vec>, last: Vec)
    requires x.Length == g.Length == |d| && x != g && CheckParam(|d|, p).None?
    requires Ready(ev, x[..], fx, g[..], d, step, |d|, frozen, x0)
    modifies x, g
    ensures g[..] == ev.grad(x[..]) && AgreesOn(x[..], x0, frozen) && AllAgree(points, x0, frozen)
    ensures f == ev.value(last) && |points| <= p.maxLineSearch && (!watched ==> error != Some(Canceled))
    ensures error.Some? ==>
              && SearchFailure(error.value) && x[..] == old(x[..])
              && last == (if |points| == 0 then old(x[..]) else points[|points| - 1])
              && (|points| > 0 ==> points[0] == FirstPoint(bound, old(x[..]), d, step, p))
              && (|points| == 0 && bound.None? ==> error == Some(Canceled))
              && (!watched ==> !GoodFirst(ev, bound, old(x[..]), d, step, p))
    ensures error.None? ==>
              && 0 < |points| < p.maxLineSearch && last == x[..] == points[|points| - 1]
              && points[0] == FirstPoint(bound, old(x[..]), d, step, p)
              && StrongWolfe(ev, old(x[..]), d, p, stp) && 0.0 < stp && x[..] == Axpy(old(x[..]), stp, d)
              && Slope(ev, old(x[..]), d, 0.0) < 0.0 && InBound(bound, old(x[..]), d, p, stp)
              && (!watched && GoodFirst(ev, bound, old(x[..]), d, step, p)
                  ==> x[..] == FirstPoint(bound, old(x[..]), d, step, p))
  {
    SlopeAtStart(ev, x[..], d);
    hide Mul, Axpy, Dot, StrongWolfe, Slope, CheckParam, Freezes, FirstPoint, SearchFailure, GoodFirst, InBound;
    var xp, gp := x[..], g[..];
    var verdict, stp1;
    verdict, f, stp1, points := SearchAlong(ev, x, fx, g, d, step, bound, p, watched, frozen, x0);
    stp, last, error := stp1, x[..], None;
    if verdict.Failed? {
      error := Some(verdict.status);
      VecCpy(x, xp);
      VecCpy(g, gp);
    }
  }

  /** The tests between an accepted step and the next direction, in order; pf is updated on the way. */
  method Finished(x: Vec, g: Vec, fx: real, pf: array<real>, k: nat, p: Param) returns (done: Option<Status>)
    requires p.past >= 0 && pf.Length == p.past && 0 < k
    modifies pf
    ensures done == Some(Convergence) <==> SmallGradient(x, g, p.gEpsilon)
    ensures done == Some(Stop) <==> !SmallGradient(x, g, p.gEpsilon) && 0 < p.past <= k
                                    && Stalled(old(pf[k % p.past]), fx, p.delta)
    ensures done == Some(MaximumIteration) ==> p.maxIterations != 0 && p.maxIterations < k + 1
    ensures done.None? ==> !SmallGradient(x, g, p.gEpsilon) && (p.maxIterations == 0 || k + 1 <= p.maxIterations)
    ensures done in {None, Some(Convergence), Some(Stop), Some(MaximumIteration)}
    ensures pf[..] == if done in {Some(Convergence), Some(Stop)} || p.past == 0 then old(pf[..])
                      else old(pf[..])[k % p.past := fx]
  {
    if SmallGradient(x, g, p.gEpsilon) {
      return Some(Convergence);
    }
    if 0 < p.past {
      if p.past <= k && Stalled(pf[k % p.past], fx, p.delta) {
        return Some(Stop);
      }
      pf[k % p.past] := fx;
    }
    if p.maxIterations != 0 && p.maxIterations < k + 1 {
      return Some(MaximumIteration);
    }
    return None;
  }

  /** The correction pair of one step. */
  ghost function PairAt(ev: Objective, xp: Vec, x: Vec): Pair
    requires |x| == |xp| && Evaluates(ev, |x|)
  {
    var (s, y) := (Sub(x, xp), Sub(ev.grad(x), ev.grad(xp)));
    Pair(s, y, Dot(y, s))
  }

  /** The scaling of the first approximation, from the newest pair. */
  ghost function Gamma(pairs: seq<Pair>): real
    requires |pairs| > 0 && |pairs[0].y| == |pairs[0].s|
  {
    if Dot(pairs[0].y, pairs[0].y) == 0.0 then 0.0 else pairs[0].ys / Dot(pairs[0].y, pairs[0].y)
  }

  /** d is the direction that the two loops make of the pairs at x. */
  ghost predicate Turned(ev: Objective, pairs: seq<Pair>, x: Vec, d: Vec)
    requires Evaluates(ev, |x|)
  {
    |pairs| > 0 && AllShaped(pairs, |x|) && d == Apply(pairs, Gamma(pairs), Neg(ev.grad(x)))
  }

  /** The secant condition of the step from xp to x, seen on the direction at x. */
  ghost predicate Secant(ev: Objective, xp: Vec, x: Vec, d: Vec)
    requires |xp| == |x| == |d| && Evaluates(ev, |x|)
  {
    Dot(Sub(ev.grad(x), ev.grad(xp)), d) == -Dot(ev.grad(x), Sub(x, xp))
  }

  /** Along what no pair has to do with, the direction is scaled steepest descent. */
  ghost predicate ScalesRest(pairs: seq<Pair>, gamma: real, g: Vec, d: Vec)
    requires |g| == |d|
  {
    forall w: Vec | |w| == |g| && OrthogonalTo(pairs, w) :: Dot(d, w) == -Mul(gamma, Dot(g, w))
  }

  /** What the two-loop direction satisfies, whatever the number of pairs. */
  lemma TurnedLaws(ev: Objective, pairs: seq<Pair>, xp: Vec, x: Vec, d: Vec)
    requires |x| == |xp| && Evaluates(ev, |x|) && Turned(ev, pairs, x, d)
    requires pairs[0] == PairAt(ev, xp, x) && Curved(pairs[0], |x|)
    ensures |d| == |x| && Secant(ev, xp, x, d) && ScalesRest(pairs, Gamma(pairs), ev.grad(x), d)
  {
    var g := ev.grad(x);
    var q := Neg(g);
    ApplySecant(pairs, Gamma(pairs), q);
    DotComm(d, pairs[0].y);
    DotComm(pairs[0].s, q);
    DotNeg(g, pairs[0].s);
    forall w: Vec | |w| == |g| && OrthogonalTo(pairs, w)
      ensures Dot(d, w) == -Mul(Gamma(pairs), Dot(g, w))
    {
      ApplyScalesRest(pairs, Gamma(pairs), q, w);
      DotNeg(g, w);
      MulNeg(Gamma(pairs), Dot(g, w));
    }
  }

  lemma MulNeg(a: real, b: real)
    ensures Mul(a, -b) == -Mul(a, b)
  {
  }

  /** The ring has the newest pair, and d is the direction of the newest pairs. */
  ghost predicate Prepared(ev: Objective, xp: Vec, x: Vec, ring: seq<Pair>, end: nat, ring': seq<Pair>, end': nat,
                           k: nat, d: Vec)
    requires |xp| == |x| && Evaluates(ev, |x|)
  {
    && |ring'| == |ring| > 0 && end < |ring| && end' < |ring| && 0 < k
    && ring' == ring[end := PairAt(ev, xp, x)] && end' == (end + 1) % |ring|
    && var pairs := Recent(ring', end', if |ring| <= k then |ring| else k);
       && pairs[0] == PairAt(ev, xp, x) && Turned(ev, pairs, x, d)
       && |d| == |x| && Secant(ev, xp, x, d) && ScalesRest(pairs, Gamma(pairs), ev.grad(x), d)
  }

  /** Store the newest pair in the ring and turn d into the next direction. */
  method UpdateDirection(ev: Objective, x: Vec, g: Vec, xp: Vec, gp: Vec, d: array<real>, alphas: array<real>,
                         ring: array<Pair>, end: nat, k: nat, ghost stp: real, p: Param, ghost frozen: set<nat>)
    returns (end': nat)
    requires ring.Length == alphas.Length > 0 && d != alphas && 0 < k
    requires |x| == |g| == |xp| == |gp| == d.Length && Evaluates(ev, |x|) && Freezes(ev, |x|, frozen)
    requires x == Axpy(xp, stp, d[..]) && g == ev.grad(x) && gp == ev.grad(xp)
    requires StrongWolfe(ev, xp, d[..], p, stp) && 0.0 < stp && p.sCurvCoeff < 1.0
    requires Slope(ev, xp, d[..], 0.0) < 0.0 && ZeroOn(d[..], frozen) && !IsZero(g)
    requires Memory(ring[..], end, if ring.Length <= k - 1 then ring.Length else k - 1, |x|, frozen)
    modifies d, alphas, ring
    ensures Memory(ring[..], end', if ring.Length <= k then ring.Length else k, |x|, frozen)
    ensures Dot(g, d[..]) < 0.0 && ZeroOn(d[..], frozen)
    ensures Prepared(ev, xp, x, old(ring[..]), end, ring[..], end', k, d[..])
  {
    hide Mul, Axpy, Dot, StrongWolfe, Slope, Secant, ScalesRest, Turned, Apply, Prepared;
    var s := VecDiff(x, xp);
    var y := VecDiff(g, gp);
    var ys := VecDot(y, s);
    var yy := VecDot(y, y);
    NewPairStored(ev, xp, d[..], p, stp, frozen);
    ghost var before := ring[..];
    ring[end] := Pair(s, y, ys);
    assert ring[..] == before[end := Pair(s, y, ys)];
    MemoryAfterStore(before, end, k, Pair(s, y, ys), |x|, frozen);
    var bound := if ring.Length <= k then ring.Length else k;
    end' := (end + 1) % ring.Length;
    VecNcpy(d, g);
    ScalingPositive(Pair(s, y, ys), |x|);
    MemoryShapes(ring[..], end', bound, |x|, frozen);
    assert ZeroOn(g, frozen);
    NextDirection(ring[..], end', bound, ys / yy, g, frozen);
    TwoLoop(d, alphas, ring[..], end', bound, ys / yy);
    TwoLoopPrepares(ev, xp, x, before, end, k, ys / yy, d[..]);
  }

  lemma TwoLoopPrepares(ev: Objective, xp: Vec, x: Vec, before: seq<Pair>, end: nat, k: nat, gamma: real, d: Vec)
    requires |xp| == |x| && Evaluates(ev, |x|) && end < |before| && 0 < k && |d| == |x|
    requires var p := PairAt(ev, xp, x); Curved(p, |x|) && Dot(p.y, p.y) != 0.0 && gamma == p.ys / Dot(p.y, p.y)
    requires var end' := (end + 1) % |before|;
             var pairs := Recent(before[end := PairAt(ev, xp, x)], end', if |before| <= k then |before| else k);
             AllShaped(pairs, |x|) && d == Apply(pairs, gamma, Neg(ev.grad(x)))
    ensures Prepared(ev, xp, x, before, end, before[end := PairAt(ev, xp, x)], (end + 1) % |before|, k, d)
  {
    var end', bound := (end + 1) % |before|, if |before| <= k then |before| else k;
    NewestIsRecent(before, end, end', bound, PairAt(ev, xp, x));
    ApplyIsTurned(ev, Recent(before[end := PairAt(ev, xp, x)], end', bound), xp, x, d, gamma);
    hide Apply, Dot, Turned, Secant, ScalesRest, PairAt, Recent;
  }

  lemma NewestIsRecent(before: seq<Pair>, end: nat, end': nat, bound: nat, p: Pair)
    requires end < |before| && end' == (end + 1) % |before| && 0 < bound <= |before|
    ensures end' < |before| && Recent(before[end := p], end', bound)[0] == p
  {
    ModOnce(end + 1, |before|);
  }

  lemma ApplyIsTurned(ev: Objective, pairs: seq<Pair>, xp: Vec, x: Vec, d: Vec, gamma: real)
    requires |x| == |xp| && Evaluates(ev, |x|) && |pairs| > 0 && AllShaped(pairs, |x|)
    requires pairs[0] == PairAt(ev, xp, x) && Curved(pairs[0], |x|) && Dot(pairs[0].y, pairs[0].y) != 0.0
    requires gamma == pairs[0].ys / Dot(pairs[0].y, pairs[0].y) && d == Apply(pairs, gamma, Neg(ev.grad(x)))
    ensures |d| == |x| && Turned(ev, pairs, x, d) && Secant(ev, xp, x, d)
    ensures ScalesRest(pairs, Gamma(pairs), ev.grad(x), d)
  {
    hide Dot, Apply;
    TurnedLaws(ev, pairs, xp, x, d);
  }

  predicate Reverted(status: Option<Status>) {
    status.Some? && SearchFailure(status.value)
  }

  /** How the run ends at its k-th accepted point, if it does; `past` is the value of p.past iterations before. */
  function EndBy(p: Param, x: Vec, g: Vec, fx: real, past: real, k: nat): Option<Status> {
    if SmallGradient(x, g, p.gEpsilon) then Some(Convergence)
    else if 0 < p.past <= k && Stalled(past, fx, p.delta) then Some(Stop)
    else if p.maxIterations != 0 && p.maxIterations < k + 1 then Some(MaximumIteration)
    else None
  }

  /** After an accepted step: the stopping tests, and the next direction if none fires. */
  method TestAndTurn(ev: Objective, x: Vec, fx: real, g: Vec, xp: Vec, gp: Vec, d: array<real>, alphas: array<real>,
                     ring: array<Pair>, end: nat, pf: array<real>, k: nat, ghost stp: real, p: Param,
                     ghost frozen: set<nat>)
    returns (done: Option<Status>, end': nat)
    requires ring.Length == alphas.Length > 0 && d != alphas && d != pf && alphas != pf && 0 < k
    requires p.past >= 0 && pf.Length == p.past
    requires |x| == |g| == |xp| == |gp| == d.Length && Evaluates(ev, |x|) && Freezes(ev, |x|, frozen)
    requires x == Axpy(xp, stp, d[..]) && g == ev.grad(x) && gp == ev.grad(xp)
    requires StrongWolfe(ev, xp, d[..], p, stp) && 0.0 < stp && p.sCurvCoeff < 1.0
    requires Slope(ev, xp, d[..], 0.0) < 0.0 && ZeroOn(d[..], frozen)
    requires Memory(ring[..], end, if ring.Length <= k - 1 then ring.Length else k - 1, |x|, frozen)
    modifies d, alphas, ring, pf
    ensures done == EndBy(p, x, g, fx, if 0 < p.past then old(pf[k % p.past]) else 0.0, k)
    ensures done.None? ==>
              && Memory(ring[..], end', if ring.Length <= k then ring.Length else k, |x|, frozen)
              && Dot(g, d[..]) < 0.0 && ZeroOn(d[..], frozen)
              && (p.maxIterations > 0 ==> k + 1 <= p.maxIterations)
              && pf[..] == (if p.past == 0 then old(pf[..]) else old(pf[..])[k % p.past := fx])
              && Prepared(ev, xp, x, old(ring[..]), end, ring[..], end', k, d[..])
  {
    hide Mul, Axpy, Dot, StrongWolfe, Slope, Apply, SmallGradient, Memory, Stalled, Prepared;
    end' := end;
    done := Finished(x, g, fx, pf, k, p);
    if done.Some? {
      return;
    }
    LargeGradientNonZero(x, g, p.gEpsilon);
    end' := UpdateDirection(ev, x, g, xp, gp, d, alphas, ring, end, k, stp, p, frozen);
  }

  /** The start of one pass: the point, the direction, and the step wanted first. */
  datatype Line = Line(x: Vec, d: Vec, step: real)

  /** A pass ends at a strong Wolfe point of its line, within the bounds on the step. */
  ghost predicate Stepped(ev: Objective, bound: Option<(Vec, Vec) -> real>, p: Param, line: Line, x: Vec)
    requires |line.x| == |line.d| && Evaluates(ev, |line.x|)
  {
    exists a ::
      && StrongWolfe(ev, line.x, line.d, p, a) && 0.0 < a && x == Axpy(line.x, a, line.d)
      && InBound(bound, line.x, line.d, p, a)
  }

  lemma DescendsExtend(ev: Objective, points: seq<Vec>, x: Vec, strictly: bool)
    requires |points| > 0 && Descends(ev, points, strictly)
    requires Descends(ev, [points[|points| - 1], x], strictly)
    ensures Descends(ev, points + [x], strictly)
  {
    var pair := [points[|points| - 1], x];
    assert ev.value(pair[1]) <= ev.value(pair[0]) && (strictly ==> ev.value(pair[1]) < ev.value(pair[0]));
  }

  /** What a run leaves behind, over the accepted points and all evaluated ones. */
  ghost predicate Outcome(ev: Objective, p: Param, frozen: set<nat>, x0: Vec, x: Vec, status: Option<Status>, fx: real,
                          accepted: seq<Vec>, points: seq<Vec>) {
    && |x| == |x0|
    // the returned point is the last accepted one of a descending chain from the start
    && |accepted| > 0 && accepted[0] == x0 && accepted[|accepted| - 1] == x
    && Descends(ev, accepted, 0.0 < p.fDecCoeff)
    // the reported value is that of the returned point, or after a failed search that of the last point tried
    && (!Reverted(status) ==> fx == ev.value(x))
    && |points| > 0 && fx == ev.value(points[|points| - 1])
    && (status in {Some(Convergence), Some(AlreadyMinimized)} ==> SmallGradient(x, ev.grad(x), p.gEpsilon))
    && (p.maxIterations > 0 ==> |accepted| <= p.maxIterations + 1)
    // every evaluated point keeps the frozen coordinates
    && AllAgree(points, x0, frozen) && AgreesOn(x, x0, frozen)
  }

  /**
   The first line search of a run starts with a known point, and ends without one only when it is cancelled at once.
   A run whose line searches may evaluate one point only accepts none.
   */
  ghost predicate FirstSearch(bound: Option<(Vec, Vec) -> real>, p: Param, budget: nat, x0: Vec, d0: Vec, step: real,
                              status: Option<Status>, accepted: seq<Vec>, points: seq<Vec>)
    requires |x0| == |d0|
  {
    && (|points| > 1 ==> points[1] == FirstPoint(bound, x0, d0, step, p))
    && (|accepted| > 1 ==> 1 < p.maxLineSearch)
    && (|accepted| == 1 ==> |points| <= p.maxLineSearch + 1)
    && (|accepted| == 1 && 0 < budget ==> Reverted(status) || status == Some(AlreadyMinimized))
    && (|points| == 1 && 0 < budget && bound.None? ==> status in {Some(Canceled), Some(AlreadyMinimized)})
  }

  // ---------- the course of a run ----------

  /** What a run is given, and the step wanted first. */
  datatype Setup = Setup(ev: Objective, bound: Option<(Vec, Vec) -> real>, p: Param, watched: bool, step0: real)

  ghost predicate Dims(ev: Objective, points: seq<Vec>) {
    |points| > 0 && Evaluates(ev, |points[0]|) && forall i | 0 <= i < |points| :: |points[i]| == |points[0]|
  }

  /** The pairs of the `count` steps that led to point k, newest first. */
  ghost function NewestPairs(ev: Objective, points: seq<Vec>, k: nat, count: nat): (pairs: seq<Pair>)
    requires Dims(ev, points) && count <= k < |points|
    ensures |pairs| == count
    ensures forall i | 0 <= i < count :: pairs[i] == PairAt(ev, points[k - 1 - i], points[k - i])
  {
    seq(count, i requires 0 <= i < count => PairAt(ev, points[k - 1 - i], points[k - i]))
  }

  function AtMost(m: int, k: nat): nat { if m <= 0 then 0 else if m <= k then m else k }

  /** Pass k starts at accepted point k: downhill first, then along the direction of the newest pairs with step one. */
  ghost predicate LineOk(c: Setup, points: seq<Vec>, k: nat, line: Line)
    requires Dims(c.ev, points) && k < |points|
  {
    && line.x == points[k] && |line.d| == |line.x|
    && if k == 0 then line.d == Neg(c.ev.grad(line.x)) && line.step == c.step0
       else line.step == 1.0
            && Turned(c.ev, NewestPairs(c.ev, points, k, AtMost(c.p.memSize, k)), line.x, line.d)
            && Secant(c.ev, points[k - 1], line.x, line.d)
  }

  /** A good first trial is where the pass goes. */
  ghost predicate Takes(c: Setup, line: Line, next: Option<Vec>)
    requires |line.x| == |line.d| && Evaluates(c.ev, |line.x|)
  {
    !c.watched && GoodFirst(c.ev, c.bound, line.x, line.d, line.step, c.p)
    ==> next == Some(FirstPoint(c.bound, line.x, line.d, line.step, c.p))
  }

  ghost predicate LineDone(c: Setup, points: seq<Vec>, lines: seq<Line>, k: nat)
    requires Dims(c.ev, points) && k < |lines| < |points|
  {
    && LineOk(c, points, k, lines[k]) && Stepped(c.ev, c.bound, c.p, lines[k], points[k + 1])
    && Takes(c, lines[k], Some(points[k + 1]))
  }

  /** How the run ends at accepted point k, if it does: judged by that point and the one p.past steps before. */
  ghost function EndAt(c: Setup, points: seq<Vec>, k: nat): Option<Status>
    requires k < |points|
  {
    var past := if 0 < c.p.past <= k then c.ev.value(points[k - c.p.past]) else 0.0;
    EndBy(c.p, points[k], c.ev.grad(points[k]), c.ev.value(points[k]), past, k)
  }

  ghost predicate SoFar(c: Setup, points: seq<Vec>, lines: seq<Line>) {
    && Dims(c.ev, points) && |points| == |lines| + 1
    && (forall k | 0 <= k < |lines| :: LineDone(c, points, lines, k))
    && forall k | 0 < k < |lines| :: EndAt(c, points, k).None?
  }

  /** A whole run: each pass from its line to the next point, up to the first end, or to a search that fails. */
  ghost predicate Course(c: Setup, status: Option<Status>, points: seq<Vec>, lines: seq<Line>) {
    if Reverted(status) then
      && |lines| > 0 && Stands(c, points, lines[..|lines| - 1], lines[|lines| - 1])
      && Takes(c, lines[|lines| - 1], None)
    else SoFar(c, points, lines) && (|points| > 1 ==> status == EndAt(c, points, |points| - 1))
  }

  /** Between two passes. */
  ghost predicate Stands(c: Setup, points: seq<Vec>, lines: seq<Line>, next: Line) {
    && SoFar(c, points, lines) && (|points| > 1 ==> EndAt(c, points, |points| - 1).None?)
    && LineOk(c, points, |points| - 1, next)
  }

  /** The array of past values holds those of the last p.past accepted points. */
  ghost predicate PastOk(c: Setup, points: seq<Vec>, pf: seq<real>) {
    c.p.past > 0 ==>
      && |pf| == c.p.past
      && forall j | 0 <= j < |points| && |points| - c.p.past <= j :: pf[Slot(j, c.p.past)] == c.ev.value(points[j])
  }

  /** The ring holds the pairs of the last steps. */
  ghost predicate RingOk(c: Setup, points: seq<Vec>, ring: seq<Pair>, end: nat)
    requires Dims(c.ev, points)
  {
    && end < |ring| == c.p.memSize
    && Recent(ring, end, AtMost(|ring|, |points| - 1))
       == NewestPairs(c.ev, points, |points| - 1, AtMost(|ring|, |points| - 1))
  }

  lemma DimsGrow(ev: Objective, points: seq<Vec>, x: Vec)
    requires Dims(ev, points) && |x| == |points[0]|
    ensures Dims(ev, points + [x])
  {
  }

  lemma NewestPairsGrow(ev: Objective, points: seq<Vec>, x: Vec, k: nat, count: nat)
    requires Dims(ev, points) && |x| == |points[0]| && count <= k < |points|
    ensures Dims(ev, points + [x]) && NewestPairs(ev, points + [x], k, count) == NewestPairs(ev, points, k, count)
  {
    DimsGrow(ev, points, x);
    hide PairAt;
  }

  lemma LineOkGrows(c: Setup, points: seq<Vec>, x: Vec, k: nat, line: Line)
    requires Dims(c.ev, points) && |x| == |points[0]| && k < |points| && LineOk(c, points, k, line)
    ensures Dims(c.ev, points + [x]) && LineOk(c, points + [x], k, line)
  {
    NewestPairsGrow(c.ev, points, x, k, AtMost(c.p.memSize, k));
    hide NewestPairs, Turned, Secant;
  }

  lemma EndAtGrows(c: Setup, points: seq<Vec>, x: Vec, k: nat)
    requires k < |points|
    ensures EndAt(c, points + [x], k) == EndAt(c, points, k)
  {
    hide EndBy;
  }

  lemma LineDoneGrows(c: Setup, points: seq<Vec>, lines: seq<Line>, x: Vec, line: Line, k: nat)
    requires Dims(c.ev, points) && |x| == |points[0]| && k < |lines| && |points| == |lines| + 1
    requires LineDone(c, points, lines, k)
    ensures Dims(c.ev, points + [x]) && LineDone(c, points + [x], lines + [line], k)
  {
    LineOkGrows(c, points, x, k, lines[k]);
    hide LineOk, Stepped, Takes;
  }

  lemma LinesGrow(c: Setup, points: seq<Vec>, lines: seq<Line>, line: Line, x: Vec)
    requires Stands(c, points, lines, line) && |x| == |points[0]| && Dims(c.ev, points + [x])
    requires Stepped(c.ev, c.bound, c.p, line, x) && Takes(c, line, Some(x))
    ensures forall k | 0 <= k < |lines| + 1 :: LineDone(c, points + [x], lines + [line], k)
  {
    hide Stepped, Takes, EndAt;
    forall k | 0 <= k < |lines| + 1
      ensures LineDone(c, points + [x], lines + [line], k)
    {
      if k < |lines| {
        LineDoneGrows(c, points, lines, x, line, k) by { hide LineOk; }
      } else {
        LineOkGrows(c, points, x, k, line);
        hide LineOk, Dims;
      }
    }
  }

  /** One more pass that reached x. */
  lemma CourseGrows(c: Setup, points: seq<Vec>, lines: seq<Line>, line: Line, x: Vec)
    requires Stands(c, points, lines, line) && |x| == |points[0]|
    requires Stepped(c.ev, c.bound, c.p, line, x) && Takes(c, line, Some(x))
    ensures SoFar(c, points + [x], lines + [line])
  {
    DimsGrow(c.ev, points, x);
    LinesGrow(c, points, lines, line, x);
    hide Stepped, Takes, LineOk, LineDone, EndAt;
    forall k | 0 < k < |lines| + 1
      ensures EndAt(c, points + [x], k).None?
    {
      EndAtGrows(c, points, x, k);
    }
  }

  lemma CourseEnds(c: Setup, status: Option<Status>, points: seq<Vec>, lines: seq<Line>)
    requires SoFar(c, points, lines) && !Reverted(status)
    requires |points| > 1 ==> status == EndAt(c, points, |points| - 1)
    ensures Course(c, status, points, lines)
  {
  }

  lemma CourseReverts(c: Setup, status: Option<Status>, points: seq<Vec>, lines: seq<Line>, line: Line)
    requires Stands(c, points, lines, line) && Reverted(status) && Takes(c, line, None)
    ensures Course(c, status, points, lines + [line])
  {
    assert (lines + [line])[..|lines|] == lines;
  }

  /** The value that the tests compare with is that of p.past steps before. */
  lemma PastSeen(c: Setup, points: seq<Vec>, pf: seq<real>, x: Vec, fx: real)
    requires PastOk(c, points, pf) && fx == c.ev.value(x) && |points| > 0
    ensures var past := if 0 < c.p.past then pf[|points| % c.p.past] else 0.0;
            EndBy(c.p, x, c.ev.grad(x), fx, past, |points|) == EndAt(c, points + [x], |points|)
  {
    var k := |points|;
    hide SmallGradient, Stalled;
    if 0 < c.p.past <= k {
      SlotBack(k, c.p.past);
      assert pf[Slot(k - c.p.past, c.p.past)] == c.ev.value(points[k - c.p.past]);
    }
  }

  lemma SlotBack(k: nat, n: nat)
    requires 0 < n <= k
    ensures Slot(k - n, n) == k % n
  {
    QuotientRemainder(k - n, n);
    QuotientUnique(k, (k - n) / n + 1, n, (k - n) % n);
  }

  lemma PastGrows(c: Setup, points: seq<Vec>, pf: seq<real>, x: Vec)
    requires PastOk(c, points, pf)
    ensures PastOk(c, points + [x], if c.p.past <= 0 then pf else pf[|points| % c.p.past := c.ev.value(x)])
  {
    if c.p.past > 0 {
      var k := |points|;
      var pf' := pf[k % c.p.past := c.ev.value(x)];
      forall j | 0 <= j < k + 1 && k + 1 - c.p.past <= j
        ensures pf'[Slot(j, c.p.past)] == c.ev.value((points + [x])[j])
      {
        if j < k {
          SlotsDistinct(j, k, c.p.past);
        }
      }
    }
  }

  /** The newest pairs of the longer run: the last one, and those of before. */
  lemma NewestPairsExtend(ev: Objective, points: seq<Vec>, x: Vec, count: nat)
    requires Dims(ev, points) && |x| == |points[0]| && 0 < count <= |points|
    ensures Dims(ev, points + [x])
    ensures NewestPairs(ev, points + [x], |points|, count)
            == [PairAt(ev, points[|points| - 1], x)] + NewestPairs(ev, points, |points| - 1, count - 1)
  {
    var k, points' := |points|, points + [x];
    DimsGrow(ev, points, x);
    hide PairAt, Dims;
    assert points'[k - 1] == points[k - 1] && points'[k] == x;
  }

  lemma NewestPairsShorter(ev: Objective, points: seq<Vec>, k: nat, count: nat)
    requires Dims(ev, points) && 0 < count <= k < |points|
    ensures NewestPairs(ev, points, k, count - 1) == NewestPairs(ev, points, k, count)[..count - 1]
  {
    hide PairAt, Dims;
  }

  /** What the ring of a longer run holds, before it is full and after. */
  lemma RingFills(ring: seq<Pair>, end: nat, k: nat, p: Pair, older: seq<Pair>)
    requires 0 < k <= |ring| && end < |ring| && Recent(ring, end, k - 1) == older
    ensures (end + 1) % |ring| < |ring| && Recent(ring[end := p], (end + 1) % |ring|, k) == [p] + older
  {
    ModOnce(end + 1, |ring|);
    RecentAfterStore(ring, end, k - 1, p);
    hide Recent;
  }

  lemma RingOverwrites(ring: seq<Pair>, end: nat, p: Pair, older: seq<Pair>)
    requires end < |ring| && Recent(ring, end, |ring|) == older
    ensures (end + 1) % |ring| < |ring|
    ensures Recent(ring[end := p], (end + 1) % |ring|, |ring|) == [p] + older[..|ring| - 1]
  {
    ModOnce(end + 1, |ring|);
    RecentAfterOverwrite(ring, end, p);
    hide Recent;
  }

  /** The ring after a pass holds the pairs of the longer run. */
  lemma RingGrows(c: Setup, points: seq<Vec>, ring: seq<Pair>, end: nat, x: Vec)
    requires Dims(c.ev, points) && |x| == |points[0]| && RingOk(c, points, ring, end)
    ensures Dims(c.ev, points + [x])
    ensures RingOk(c, points + [x], ring[end := PairAt(c.ev, points[|points| - 1], x)], (end + 1) % |ring|)
  {
    var m, k := |ring|, |points|;
    DimsAt(c.ev, points, x);
    hide PairAt, Dims, NewestPairs, Recent, Evaluates;
    var p := PairAt(c.ev, points[k - 1], x);
    var older := NewestPairs(c.ev, points, k - 1, AtMost(m, k - 1));
    NewestPairsExtend(c.ev, points, x, AtMost(m, k));
    if k <= m {
      RingFills(ring, end, k, p, older);
    } else {
      RingOverwrites(ring, end, p, older);
      NewestPairsShorter(c.ev, points, k - 1, m);
    }
  }

  lemma DimsAt(ev: Objective, points: seq<Vec>, x: Vec)
    requires Dims(ev, points) && |x| == |points[0]|
    ensures Dims(ev, points + [x]) && |points[|points| - 1]| == |x| && Evaluates(ev, |x|)
  {
  }

  /** After a pass that ends nothing, the run stands at its next line. */
  lemma StandsAgain(c: Setup, points: seq<Vec>, lines: seq<Line>, ring: seq<Pair>, end: nat, ring': seq<Pair>,
                    end': nat, d: Vec)
    requires SoFar(c, points, lines) && |points| > 1 && EndAt(c, points, |points| - 1).None?
    requires Prepared(c.ev, points[|points| - 2], points[|points| - 1], ring, end, ring', end', |points| - 1, d)
    requires var p := PairAt(c.ev, points[|points| - 2], points[|points| - 1]);
             end < |ring| && RingOk(c, points, ring[end := p], (end + 1) % |ring|)
    ensures RingOk(c, points, ring', end') && Stands(c, points, lines, Line(points[|points| - 1], d, 1.0))
  {
    hide LineDone, EndAt, Turned, Secant, ScalesRest, Recent, NewestPairs;
  }

  /** The accepted points, all evaluated ones, and the lines of the passes. */
  datatype Trace = Trace(accepted: seq<Vec>, points: seq<Vec>, lines: seq<Line>)

  /** The buffers at the head of the main loop. */
  datatype Head = Head(x: Vec, fx: real, g: Vec, d: Vec, step: real, ring: seq<Pair>, end: nat, pf: seq<real>)

  ghost predicate BuffersOk(c: Setup, frozen: set<nat>, x0: Vec, h: Head, k: nat) {
    && 0 < k && Ready(c.ev, h.x, h.fx, h.g, h.d, h.step, |x0|, frozen, x0) && CheckParam(|x0|, c.p).None?
    && |h.ring| == c.p.memSize && |h.pf| == c.p.past
    && Memory(h.ring, h.end, if |h.ring| <= k - 1 then |h.ring| else k - 1, |x0|, frozen)
    && (c.p.maxIterations > 0 ==> k <= c.p.maxIterations)
  }

  /** The accepted points descend from x0 to x; all evaluated ones keep the frozen coordinates, and the last is x. */
  ghost predicate ChainOk(c: Setup, frozen: set<nat>, t: Trace, x0: Vec, x: Vec) {
    && |t.accepted| > 0 && t.accepted[0] == x0 && t.accepted[|t.accepted| - 1] == x
    && Descends(c.ev, t.accepted, 0.0 < c.p.fDecCoeff)
    && AllAgree(t.points, x0, frozen) && |t.points| > 0 && t.points[|t.points| - 1] == x
  }

  ghost predicate FirstOk(c: Setup, t: Trace, x0: Vec, h: Head) {
    && |c.ev.grad(x0)| == |x0|
    && if |t.accepted| == 1 then t.points == [x0] && h.x == x0 && h.d == Neg(c.ev.grad(x0)) && h.step == c.step0
       else 1 < c.p.maxLineSearch && |t.points| > 1
            && t.points[1] == FirstPoint(c.bound, x0, Neg(c.ev.grad(x0)), c.step0, c.p)
  }

  ghost predicate TrackOk(c: Setup, t: Trace, h: Head) {
    && |t.accepted| > 0 && Stands(c, t.accepted, t.lines, Line(h.x, h.d, h.step)) && Dims(c.ev, t.accepted)
    && t.accepted[|t.accepted| - 1] == h.x
    && RingOk(c, t.accepted, h.ring, h.end) && PastOk(c, t.accepted, h.pf)
  }

  /** What holds whenever a pass begins. */
  ghost predicate HeadOk(c: Setup, frozen: set<nat>, t: Trace, x0: Vec, h: Head) {
    && BuffersOk(c, frozen, x0, h, |t.accepted|) && ChainOk(c, frozen, t, x0, h.x)
    && FirstOk(c, t, x0, h) && TrackOk(c, t, h)
  }

  /** What a run leaves. */
  ghost predicate EndOk(c: Setup, frozen: set<nat>, t: Trace, x0: Vec, x: Vec, status: Option<Status>, fx: real,
                        budget: nat) {
    && |c.ev.grad(x0)| == |x0| && Outcome(c.ev, c.p, frozen, x0, x, status, fx, t.accepted, t.points)
    && Course(c, status, t.accepted, t.lines)
    && FirstSearch(c.bound, c.p, budget, x0, Neg(c.ev.grad(x0)), c.step0, status, t.accepted, t.points)
  }

  /** What one pass reports. */
  datatype Report = Report(done: Option<Status>, fx: real, x: Vec, tried: seq<Vec>, last: Vec)

  /** The part of a pass's contract that a run is made of. */
  ghost predicate PassOk(c: Setup, frozen: set<nat>, x0: Vec, h: Head, k: nat, r: Report) {
    var line := Line(h.x, h.d, h.step);
    && |h.x| == |h.d| == |x0| == |r.x| && Evaluates(c.ev, |h.x|)
    && AllAgree(r.tried, x0, frozen) && AgreesOn(r.x, x0, frozen)
    && r.last == (if |r.tried| == 0 then h.x else r.tried[|r.tried| - 1]) && r.fx == c.ev.value(r.last)
    && (|r.tried| > 0 ==> r.tried[0] == FirstPoint(c.bound, h.x, h.d, h.step, c.p))
    && |r.tried| <= c.p.maxLineSearch
    && (|r.tried| == 0 && c.bound.None? ==> r.done == Some(Canceled)) && r.done != Some(AlreadyMinimized)
    && if Reverted(r.done) then r.x == h.x && Takes(c, line, None)
       else
         && r.last == r.x && 0 < |r.tried| < c.p.maxLineSearch
         && Descends(c.ev, [h.x, r.x], 0.0 < c.p.fDecCoeff)
         && r.done
            == EndBy(c.p, r.x, c.ev.grad(r.x), r.fx, if 0 < c.p.past == |h.pf| then h.pf[k % c.p.past] else 0.0, k)
         && Stepped(c.ev, c.bound, c.p, line, r.x) && Takes(c, line, Some(r.x))
  }

  /** The buffers that a pass which ends nothing leaves for the next one. */
  ghost predicate Leads(c: Setup, frozen: set<nat>, x0: Vec, h: Head, k: nat, r: Report, h': Head) {
    && BuffersOk(c, frozen, x0, h, k) && BuffersOk(c, frozen, x0, h', k + 1)
    && |h.x| == |h'.x| && Evaluates(c.ev, |h.x|) && h'.x == r.x && h'.step == 1.0 && 0 <= c.p.past == |h.pf|
    && h'.pf == (if c.p.past == 0 then h.pf else h.pf[k % c.p.past := r.fx])
    && Prepared(c.ev, h.x, h'.x, h.ring, h.end, h'.ring, h'.end, k, h'.d)
  }

  /** The points of a pass added to those of the run. */
  function Extended(t: Trace, line: Line, r: Report): Trace {
    Trace(if Reverted(r.done) then t.accepted else t.accepted + [r.x], t.points + r.tried, t.lines + [line])
  }

  lemma ChainReverts(c: Setup, frozen: set<nat>, t: Trace, x0: Vec, h: Head, r: Report)
    requires BuffersOk(c, frozen, x0, h, |t.accepted|) && ChainOk(c, frozen, t, x0, h.x) && |r.x| == |x0|
    requires Evaluates(c.ev, |x0|) && |h.x| == |h.d| == |x0| && PassOk(c, frozen, x0, h, |t.accepted|, r)
    requires Reverted(r.done)
    ensures Outcome(c.ev, c.p, frozen, x0, r.x, r.done, r.fx, t.accepted, t.points + r.tried)
    ensures r.last == (t.points + r.tried)[|t.points + r.tried| - 1]
  {
    hide Descends, FirstPoint, Memory, SmallGradient, EndBy, Stepped, Takes, CheckParam, Freezes, Evaluates;
  }

  lemma ChainSteps(c: Setup, frozen: set<nat>, t: Trace, x0: Vec, h: Head, r: Report)
    requires BuffersOk(c, frozen, x0, h, |t.accepted|) && ChainOk(c, frozen, t, x0, h.x) && |r.x| == |x0|
    requires Evaluates(c.ev, |x0|) && |h.x| == |h.d| == |x0| && PassOk(c, frozen, x0, h, |t.accepted|, r)
    requires !Reverted(r.done)
    ensures Outcome(c.ev, c.p, frozen, x0, r.x, r.done, r.fx, t.accepted + [r.x], t.points + r.tried)
    ensures r.last == (t.points + r.tried)[|t.points + r.tried| - 1]
    ensures ChainOk(c, frozen, Extended(t, Line(h.x, h.d, h.step), r), x0, r.x)
  {
    var past := if 0 < c.p.past == |h.pf| then h.pf[|t.accepted| % c.p.past] else 0.0;
    EndByMeans(c.p, r.x, c.ev.grad(r.x), r.fx, past, |t.accepted|);
    DescendsExtend(c.ev, t.accepted, r.x, 0.0 < c.p.fDecCoeff);
    hide Descends, FirstPoint, Memory, SmallGradient, EndBy, Stepped, Takes, CheckParam, Freezes, Evaluates;
  }

  lemma ChainEnds(c: Setup, frozen: set<nat>, t: Trace, x0: Vec, h: Head, r: Report)
    requires BuffersOk(c, frozen, x0, h, |t.accepted|) && ChainOk(c, frozen, t, x0, h.x) && |r.x| == |x0|
    requires Evaluates(c.ev, |x0|) && |h.x| == |h.d| == |x0| && PassOk(c, frozen, x0, h, |t.accepted|, r)
    ensures var t' := Extended(t, Line(h.x, h.d, h.step), r);
            && Outcome(c.ev, c.p, frozen, x0, r.x, r.done, r.fx, t'.accepted, t'.points)
            && |t'.points| > 0 && r.last == t'.points[|t'.points| - 1]
            && (!Reverted(r.done) ==> ChainOk(c, frozen, t', x0, r.x))
  {
    hide BuffersOk, ChainOk, PassOk, Outcome, Evaluates;
    if Reverted(r.done) {
      ChainReverts(c, frozen, t, x0, h, r);
      OutcomeHasPoints(c, frozen, x0, r, Extended(t, Line(h.x, h.d, h.step), r));
    } else {
      ChainSteps(c, frozen, t, x0, h, r);
      OutcomeHasPoints(c, frozen, x0, r, Extended(t, Line(h.x, h.d, h.step), r));
    }
  }

  lemma FirstEnds(c: Setup, frozen: set<nat>, t: Trace, x0: Vec, h: Head, r: Report)
    requires FirstOk(c, t, x0, h) && |r.x| == |x0| && |t.accepted| > 0
    requires Evaluates(c.ev, |x0|) && |h.x| == |h.d| == |x0| && PassOk(c, frozen, x0, h, |t.accepted|, r)
    ensures var t' := Extended(t, Line(h.x, h.d, h.step), r);
            && FirstSearch(c.bound, c.p, 1, x0, Neg(c.ev.grad(x0)), c.step0, r.done, t'.accepted, t'.points)
            && (!Reverted(r.done) ==>
                  && |t'.accepted| > 1 && 1 < c.p.maxLineSearch && |t'.points| > 1
                  && t'.points[1] == FirstPoint(c.bound, x0, Neg(c.ev.grad(x0)), c.step0, c.p))
  {
    hide Descends, FirstPoint, SmallGradient, EndBy, Stepped, Takes, AllAgree, AgreesOn, Evaluates, SearchFailure;
  }

  lemma TrackReverts(c: Setup, frozen: set<nat>, t: Trace, x0: Vec, h: Head, r: Report)
    requires TrackOk(c, t, h) && PassOk(c, frozen, x0, h, |t.accepted|, r) && Reverted(r.done)
    ensures Course(c, r.done, t.accepted, t.lines + [Line(h.x, h.d, h.step)])
  {
    hide Stands, Course, FirstPoint, RingOk, PastOk, SmallGradient, AllAgree, AgreesOn, Dims, Reverted, Takes;
    CourseReverts(c, r.done, t.accepted, t.lines, Line(h.x, h.d, h.step));
  }

  lemma TrackEnds(c: Setup, frozen: set<nat>, t: Trace, x0: Vec, h: Head, r: Report)
    requires TrackOk(c, t, h) && PassOk(c, frozen, x0, h, |t.accepted|, r) && !Reverted(r.done)
    requires 0 <= c.p.past == |h.pf|
    ensures var (k, points, lines) := (|t.accepted|, t.accepted + [r.x], t.lines + [Line(h.x, h.d, h.step)]);
            && Course(c, r.done, points, lines) && SoFar(c, points, lines)
            && r.done == EndAt(c, points, k) && Dims(c.ev, points)
            && Evaluates(c.ev, |h.x|) && |r.x| == |h.x| && h.end < |h.ring|
            && RingOk(c, points, h.ring[h.end := PairAt(c.ev, h.x, r.x)], (h.end + 1) % |h.ring|)
            && PastOk(c, points, if c.p.past <= 0 then h.pf else h.pf[k % c.p.past := r.fx])
  {
    hide *;
    TrackParts(c, t, h);
    StepParts(c, frozen, x0, h, |t.accepted|, r);
    CourseContinues(c, r.done, t.accepted, t.lines, Line(h.x, h.d, h.step), r.x, r.fx, h.pf, h.ring, h.end);
  }

  lemma TrackParts(c: Setup, t: Trace, h: Head)
    requires TrackOk(c, t, h)
    ensures |t.accepted| > 0 && Stands(c, t.accepted, t.lines, Line(h.x, h.d, h.step)) && Dims(c.ev, t.accepted)
    ensures t.accepted[|t.accepted| - 1] == h.x && |h.x| == |t.accepted[0]| && h.end < |h.ring|
    ensures RingOk(c, t.accepted, h.ring, h.end) && PastOk(c, t.accepted, h.pf)
  {
    hide Stands, PastOk, Evaluates, NewestPairs, Recent;
  }

  lemma StepParts(c: Setup, frozen: set<nat>, x0: Vec, h: Head, k: nat, r: Report)
    requires PassOk(c, frozen, x0, h, k, r) && !Reverted(r.done)
    ensures |r.x| == |h.x| == |h.d| && Evaluates(c.ev, |h.x|) && r.fx == c.ev.value(r.x)
    ensures Stepped(c.ev, c.bound, c.p, Line(h.x, h.d, h.step), r.x) && Takes(c, Line(h.x, h.d, h.step), Some(r.x))
    ensures r.done
         == EndBy(c.p, r.x, c.ev.grad(r.x), r.fx, if 0 < c.p.past == |h.pf| then h.pf[k % c.p.past] else 0.0, k)
  {
    hide AllAgree, AgreesOn, Descends, FirstPoint, EndBy, Stepped, Takes, Evaluates, Reverted;
  }

  /** The run stands at the line of the next pass. */
  lemma TrackGoesOn(c: Setup, frozen: set<nat>, t: Trace, x0: Vec, h: Head, r: Report, h': Head)
    requires TrackOk(c, t, h) && |r.x| == |x0| && 0 <= c.p.past == |h.pf| && r.done.None? && h'.x == r.x
    requires Evaluates(c.ev, |x0|) && |h.x| == |h.d| == |x0| && PassOk(c, frozen, x0, h, |t.accepted|, r)
    requires h'.step == 1.0 && h'.pf == if c.p.past <= 0 then h.pf else h.pf[|t.accepted| % c.p.past := r.fx]
    requires Prepared(c.ev, h.x, h'.x, h.ring, h.end, h'.ring, h'.end, |t.accepted|, h'.d)
    ensures TrackOk(c, Extended(t, Line(h.x, h.d, h.step), r), h')
  {
    var t' := Extended(t, Line(h.x, h.d, h.step), r);
    hide PassOk, Course, SoFar, EndAt, RingOk, PastOk, Prepared, Stands, PairAt, Dims, TrackOk, Evaluates;
    TrackEnds(c, frozen, t, x0, h, r);
    TrackMeans(c, t, h);
    assert t'.accepted == t.accepted + [r.x];
    TrackAgain(c, t', h, h');
  }

  lemma TrackAgain(c: Setup, t: Trace, h: Head, h': Head)
    requires |t.accepted| > 1 && t.accepted[|t.accepted| - 2] == h.x && t.accepted[|t.accepted| - 1] == h'.x
    requires SoFar(c, t.accepted, t.lines) && EndAt(c, t.accepted, |t.accepted| - 1).None? && Dims(c.ev, t.accepted)
    requires |h.x| == |h'.x| && Evaluates(c.ev, |h.x|) && h.end < |h.ring| && h'.step == 1.0
    requires RingOk(c, t.accepted, h.ring[h.end := PairAt(c.ev, h.x, h'.x)], (h.end + 1) % |h.ring|)
    requires PastOk(c, t.accepted, h'.pf)
    requires Prepared(c.ev, h.x, h'.x, h.ring, h.end, h'.ring, h'.end, |t.accepted| - 1, h'.d)
    ensures TrackOk(c, t, h')
  {
    hide SoFar, EndAt, RingOk, PastOk, Prepared, Stands, PairAt, Dims, TrackOk, Evaluates;
    StandsAgain(c, t.accepted, t.lines, h.ring, h.end, h'.ring, h'.end, h'.d);
    TrackStands(c, t, h');
  }

  lemma TrackStands(c: Setup, t: Trace, h: Head)
    requires |t.accepted| > 0 && Stands(c, t.accepted, t.lines, Line(h.x, h.d, h.step)) && Dims(c.ev, t.accepted)
    requires t.accepted[|t.accepted| - 1] == h.x
    requires RingOk(c, t.accepted, h.ring, h.end) && PastOk(c, t.accepted, h.pf)
    ensures TrackOk(c, t, h)
  {
    hide Stands, Dims, RingOk, PastOk;
  }

  lemma FirstGoesOn(c: Setup, frozen: set<nat>, t: Trace, x0: Vec, h: Head, r: Report, h': Head)
    requires FirstOk(c, t, x0, h) && |r.x| == |x0| && |t.accepted| > 0 && r.done.None?
    requires Evaluates(c.ev, |x0|) && |h.x| == |h.d| == |x0| && PassOk(c, frozen, x0, h, |t.accepted|, r)
    ensures FirstOk(c, Extended(t, Line(h.x, h.d, h.step), r), x0, h')
  {
    FirstEnds(c, frozen, t, x0, h, r);
    hide PassOk, FirstSearch, FirstPoint, Evaluates, Extended;
  }

  /** A pass that does not end the run leads to the head of the next one. */
  lemma StepGoesOn(c: Setup, frozen: set<nat>, t: Trace, x0: Vec, h: Head, r: Report, h': Head)
    requires HeadOk(c, frozen, t, x0, h) && |r.x| == |x0| && Evaluates(c.ev, |x0|) && |h.x| == |h.d| == |x0|
    requires PassOk(c, frozen, x0, h, |t.accepted|, r) && r.done.None?
    requires Leads(c, frozen, x0, h, |t.accepted|, r, h')
    ensures HeadOk(c, frozen, Extended(t, Line(h.x, h.d, h.step), r), x0, h')
  {
    var t' := Extended(t, Line(h.x, h.d, h.step), r);
    hide *;
    HeadParts(c, frozen, t, x0, h);
    LeadsParts(c, frozen, x0, h, |t.accepted|, r, h');
    ChainEnds(c, frozen, t, x0, h, r);
    FirstGoesOn(c, frozen, t, x0, h, r, h');
    TrackGoesOn(c, frozen, t, x0, h, r, h');
    HeadTogether(c, frozen, t, t', x0, h, r, h');
  }

  lemma HeadParts(c: Setup, frozen: set<nat>, t: Trace, x0: Vec, h: Head)
    requires HeadOk(c, frozen, t, x0, h)
    ensures BuffersOk(c, frozen, x0, h, |t.accepted|) && ChainOk(c, frozen, t, x0, h.x)
    ensures FirstOk(c, t, x0, h) && TrackOk(c, t, h) && |t.accepted| > 0
  {
    hide BuffersOk, FirstOk, TrackOk, Descends, AllAgree;
  }

  lemma LeadsParts(c: Setup, frozen: set<nat>, x0: Vec, h: Head, k: nat, r: Report, h': Head)
    requires Leads(c, frozen, x0, h, k, r, h')
    ensures |h.x| == |h'.x| && Evaluates(c.ev, |h.x|) && h'.x == r.x && h'.step == 1.0 && 0 <= c.p.past == |h.pf|
    ensures h'.pf == if c.p.past <= 0 then h.pf else h.pf[k % c.p.past := r.fx]
    ensures Prepared(c.ev, h.x, h'.x, h.ring, h.end, h'.ring, h'.end, k, h'.d)
  {
    hide BuffersOk, Prepared, Evaluates;
  }

  lemma HeadTogether(c: Setup, frozen: set<nat>, t: Trace, t': Trace, x0: Vec, h: Head, r: Report, h': Head)
    requires Leads(c, frozen, x0, h, |t.accepted|, r, h') && r.done.None?
    requires t' == Extended(t, Line(h.x, h.d, h.step), r) && (!Reverted(r.done) ==> ChainOk(c, frozen, t', x0, r.x))
    requires FirstOk(c, t', x0, h') && TrackOk(c, t', h')
    ensures HeadOk(c, frozen, t', x0, h')
  {
    hide BuffersOk, ChainOk, FirstOk, TrackOk, Prepared, Evaluates;
  }

  lemma BuffersMean(c: Setup, frozen: set<nat>, x0: Vec, h: Head, k: nat)
    requires BuffersOk(c, frozen, x0, h, k)
    ensures 0 <= c.p.past == |h.pf| && 0 < c.p.memSize == |h.ring| && 0 < k && CheckParam(|x0|, c.p).None?
    ensures Ready(c.ev, h.x, h.fx, h.g, h.d, h.step, |x0|, frozen, x0) && Evaluates(c.ev, |x0|)
    ensures |c.ev.grad(x0)| == |x0| == |h.x| == |h.d|
    ensures Memory(h.ring, h.end, if |h.ring| <= k - 1 then |h.ring| else k - 1, |x0|, frozen)
    ensures c.p.maxIterations > 0 ==> k <= c.p.maxIterations
  {
    CheckedParam(|x0|, c.p);
    hide Memory, CheckParam, Freezes, ZeroOn, AgreesOn;
  }

  lemma TrackMeans(c: Setup, t: Trace, h: Head)
    requires TrackOk(c, t, h)
    ensures |t.accepted| > 0 && t.accepted[|t.accepted| - 1] == h.x
  {
  }

  /** The main loop. */
  method Iterate(ev: Objective, x: array<real>, fx0: real, g: array<real>, d: array<real>, step0: real,
                 alphas: array<real>, ring: array<Pair>, pf: array<real>,
                 bound: Option<(Vec, Vec) -> real>, p: Param, watched: bool, budget: nat, ghost frozen: set<nat>)
    returns (status: Option<Status>, fx: real, last: Vec, ghost t: Trace)
    requires x.Length == g.Length == d.Length && CheckParam(x.Length, p).None?
    requires ring.Length == alphas.Length == p.memSize && pf.Length == p.past
    requires x != g && x != d && x != alphas && x != pf && g != d && g != alphas && g != pf && d != alphas && d != pf
             && alphas != pf
    requires Ready(ev, x[..], fx0, g[..], d[..], step0, x.Length, frozen, x[..]) && d[..] == Neg(g[..])
    requires 0 < p.past ==> pf[0] == fx0
    modifies x, g, d, alphas, ring, pf
    ensures EndOk(Setup(ev, bound, p, watched, step0), frozen, t, old(x[..]), x[..], status, fx, budget)
    ensures |t.points| > 0 && last == t.points[|t.points| - 1]
    ensures !watched ==> status != Some(Canceled)
    ensures status.None? ==> |t.accepted| == budget + 1
  {
    var c := Setup(ev, bound, p, watched, step0);
    ghost var h := Head(x[..], fx0, g[..], d[..], step0, ring[..], 0, pf[..]);
    hide *;
    HeadAtFirst(c, frozen, h);
    status, fx, last, t := Passes(c, x, fx0, g, d, alphas, ring, pf, budget, frozen, Trace([h.x], [h.x], []), h);
  }

  /** The passes from the first one on. */
  method Passes(c: Setup, x: array<real>, fx0: real, g: array<real>, d: array<real>, alphas: array<real>,
                ring: array<Pair>, pf: array<real>, budget: nat, ghost frozen: set<nat>, ghost t0: Trace,
                ghost h0: Head)
    returns (status: Option<Status>, fx: real, last: Vec, ghost t: Trace)
    requires x.Length == g.Length == d.Length == |h0.x| && ring.Length == alphas.Length && |t0.accepted| == 1
    requires x != g && x != d && x != alphas && x != pf && g != d && g != alphas && g != pf && d != alphas && d != pf
             && alphas != pf
    requires h0 == Head(x[..], fx0, g[..], d[..], c.step0, ring[..], 0, pf[..]) && HeadOk(c, frozen, t0, h0.x, h0)
    modifies x, g, d, alphas, ring, pf
    ensures EndOk(c, frozen, t, h0.x, x[..], status, fx, budget)
    ensures |t.points| > 0 && last == t.points[|t.points| - 1]
    ensures !c.watched ==> status != Some(Canceled)
    ensures status.None? ==> |t.accepted| == budget + 1
  {
    hide *;
    ghost var h := h0;
    t, fx, status, last := t0, fx0, None, x[..];
    var step, k, end := c.step0, 1, 0;
    while k <= budget
      invariant 1 <= k <= budget + 1 && status.None? && |t.accepted| == k && last == h.x
      invariant h == Head(x[..], fx, g[..], d[..], step, ring[..], end, pf[..]) && HeadOk(c, frozen, t, h0.x, h)
    {
      ghost var was, head := t, h;
      status, fx, end, last, t, h := Advance(c, x, fx, g, d, step, alphas, ring, end, pf, k, frozen, h0.x, t, h);
      ghost var r: Report :| Advanced(c, frozen, was, h0.x, head, r, t, h)
                             && r.done == status && r.fx == fx && r.x == h.x && r.last == last;
      AdvancedMeans(c, frozen, was, h0.x, head, r, t, h, budget);
      if status.Some? {
        return;
      }
      k := k + 1;
      step := 1.0;
    }
    HeadMeansEnd(c, frozen, t, h0.x, h, budget);
  }

  /** One pass of a run: the run goes on at h', or t' is all of it. */
  ghost predicate Advanced(c: Setup, frozen: set<nat>, t: Trace, x0: Vec, h: Head, r: Report, t': Trace, h': Head) {
    && |r.x| == |x0| && |t'.points| > 0 && r.last == t'.points[|t'.points| - 1]
    && if r.done.Some? then EndOk(c, frozen, t', x0, r.x, r.done, r.fx, 1)
       else HeadOk(c, frozen, t', x0, h') && |t'.accepted| == |t.accepted| + 1 && r.last == h'.x
  }

  /** One pass, and what it adds to the run. */
  method Advance(c: Setup, x: array<real>, fx: real, g: array<real>, d: array<real>, step: real,
                 alphas: array<real>, ring: array<Pair>, end: nat, pf: array<real>, k: nat,
                 ghost frozen: set<nat>, ghost x0: Vec, ghost t: Trace, ghost h: Head)
    returns (done: Option<Status>, f: real, end': nat, last: Vec, ghost t': Trace, ghost h': Head)
    requires x.Length == g.Length == d.Length == |x0| && ring.Length == alphas.Length && |t.accepted| == k
    requires x != g && x != d && x != alphas && x != pf && g != d && g != alphas && g != pf && d != alphas && d != pf
             && alphas != pf
    requires h == Head(x[..], fx, g[..], d[..], step, ring[..], end, pf[..]) && HeadOk(c, frozen, t, x0, h)
    modifies x, g, d, alphas, ring, pf
    ensures h' == Head(x[..], f, g[..], d[..], 1.0, ring[..], end', pf[..])
    ensures exists r: Report ::
              && Advanced(c, frozen, t, x0, h, r, t', h')
              && r.done == done && r.fx == f && r.x == h'.x && r.last == last
    ensures !c.watched ==> done != Some(Canceled)
  {
    HeadParts(c, frozen, t, x0, h);
    hide *;
    ghost var r;
    done, f, end', last, h', r := Pass(c, x, fx, g, d, step, alphas, ring, end, pf, k, frozen, x0, h);
    t' := Extended(t, Line(h.x, h.d, h.step), r);
    PassAdvances(c, frozen, t, x0, h, r, h');
  }

  lemma PassAdvances(c: Setup, frozen: set<nat>, t: Trace, x0: Vec, h: Head, r: Report, h': Head)
    requires HeadOk(c, frozen, t, x0, h) && PassOk(c, frozen, x0, h, |t.accepted|, r)
    requires r.done.None? ==> Leads(c, frozen, x0, h, |t.accepted|, r, h')
    ensures Advanced(c, frozen, t, x0, h, r, Extended(t, Line(h.x, h.d, h.step), r), h')
  {
    hide HeadOk, Leads, EndOk;
    PassSizes(c, frozen, x0, h, |t.accepted|, r);
    hide PassOk;
    PassEnds(c, frozen, t, x0, h, r);
    if r.done.None? {
      StepGoesOn(c, frozen, t, x0, h, r, h');
      LeadsParts(c, frozen, x0, h, |t.accepted|, r, h');
    }
  }

  lemma PassSizes(c: Setup, frozen: set<nat>, x0: Vec, h: Head, k: nat, r: Report)
    requires PassOk(c, frozen, x0, h, k, r)
    ensures |h.x| == |h.d| == |x0| == |r.x| && Evaluates(c.ev, |x0|)
  {
    hide Evaluates;
  }

  /** One pass of the main loop: search, test, and prepare the next direction. */
  method Pass(c: Setup, x: array<real>, fx: real, g: array<real>, d: array<real>, step: real,
              alphas: array<real>, ring: array<Pair>, end: nat, pf: array<real>, k: nat,
              ghost frozen: set<nat>, ghost x0: Vec, ghost h: Head)
    returns (done: Option<Status>, f: real, end': nat, last: Vec, ghost h': Head, ghost r: Report)
    requires x.Length == g.Length == d.Length == |x0| && ring.Length == alphas.Length
    requires x != g && x != d && x != alphas && x != pf && g != d && g != alphas && g != pf && d != alphas && d != pf
             && alphas != pf
    requires h == Head(x[..], fx, g[..], d[..], step, ring[..], end, pf[..]) && BuffersOk(c, frozen, x0, h, k)
    modifies x, g, d, alphas, ring, pf
    ensures PassOk(c, frozen, x0, h, k, r) && r.done == done && r.fx == f && r.x == h'.x && r.last == last
    ensures !c.watched ==> done != Some(Canceled)
    ensures h' == Head(x[..], f, g[..], d[..], 1.0, ring[..], end', pf[..])
    ensures done.None? ==> Leads(c, frozen, x0, h, k, r, h')
  {
    hide *;
    end' := end;
    var xp, gp := x[..], g[..];
    ghost var stp;
    done, f, stp, last, r := SearchStep(c, x, fx, g, d[..], step, k, frozen, x0, h);
    h' := Head(x[..], f, g[..], d[..], 1.0, ring[..], end', pf[..]);
    if done.None? {
      done, end' := TurnStep(c, x[..], f, g[..], xp, gp, d, alphas, ring, end, pf, k, stp, frozen, x0, h, r);
      r := Report(done, f, r.x, r.tried, last);
      h' := Head(x[..], f, g[..], d[..], 1.0, ring[..], end', pf[..]);
    }
  }

  /** A search that found a point. */
  ghost predicate FoundOk(c: Setup, frozen: set<nat>, x0: Vec, h: Head, stp: real, r: Report) {
    && |r.x| == |x0| == |h.x| == |h.d| && Evaluates(c.ev, |h.x|)
    && AllAgree(r.tried, x0, frozen) && AgreesOn(r.x, x0, frozen)
    && r.last == r.x && 0 < |r.tried| < c.p.maxLineSearch && r.x == r.tried[|r.tried| - 1]
    && r.fx == c.ev.value(r.x) && r.tried[0] == FirstPoint(c.bound, h.x, h.d, h.step, c.p)
    && StrongWolfe(c.ev, h.x, h.d, c.p, stp) && 0.0 < stp && r.x == Axpy(h.x, stp, h.d)
    && Slope(c.ev, h.x, h.d, 0.0) < 0.0 && InBound(c.bound, h.x, h.d, c.p, stp)
    && (!c.watched && GoodFirst(c.ev, c.bound, h.x, h.d, h.step, c.p)
        ==> r.x == FirstPoint(c.bound, h.x, h.d, h.step, c.p))
  }

  /** What the tests and the update of the direction leave. */
  ghost predicate TurnOk(c: Setup, frozen: set<nat>, x0: Vec, h: Head, k: nat, r: Report, h': Head) {
    && |r.x| == |x0| == |h.x| == |h.d| && Evaluates(c.ev, |h.x|) && 0 <= c.p.past == |h.pf|
    && h'.x == r.x && h'.fx == r.fx && h'.step == 1.0 && h'.g == c.ev.grad(h'.x) && |h'.d| == |h'.x|
    && |h'.ring| == |h.ring| && |h'.pf| == |h.pf|
    && r.done == EndBy(c.p, r.x, c.ev.grad(r.x), r.fx, if 0 < c.p.past then h.pf[k % c.p.past] else 0.0, k)
    && (r.done.None? ==>
          && Memory(h'.ring, h'.end, if |h'.ring| <= k then |h'.ring| else k, |x0|, frozen)
          && Dot(h'.g, h'.d) < 0.0 && ZeroOn(h'.d, frozen)
          && (c.p.maxIterations > 0 ==> k + 1 <= c.p.maxIterations)
          && h'.pf == (if c.p.past == 0 then h.pf else h.pf[k % c.p.past := r.fx])
          && Prepared(c.ev, h.x, h'.x, h.ring, h.end, h'.ring, h'.end, k, h'.d))
  }

  /** The search of a pass, and its revert. */
  method SearchStep(c: Setup, x: array<real>, fx: real, g: array<real>, d: Vec, step: real, k: nat,
                    ghost frozen: set<nat>, ghost x0: Vec, ghost h: Head)
    returns (done: Option<Status>, f: real, ghost stp: real, last: Vec, ghost r: Report)
    requires x.Length == g.Length == |d| == |x0| && x != g && BuffersOk(c, frozen, x0, h, k)
    requires h.x == x[..] && h.fx == fx && h.g == g[..] && h.d == d && h.step == step
    modifies x, g
    ensures r.done == done && r.fx == f && r.x == x[..] && r.last == last && g[..] == c.ev.grad(r.x)
    ensures done.Some? ==> PassOk(c, frozen, x0, h, k, r)
    ensures done.None? ==> FoundOk(c, frozen, x0, h, stp, r)
    ensures !c.watched ==> done != Some(Canceled)
  {
    hide *;
    BuffersMean(c, frozen, x0, h, k);
    ghost var tried;
    done, f, stp, tried, last := SearchOnce(c.ev, x, fx, g, d, step, c.bound, c.p, c.watched, frozen, x0);
    ghost var x1 := x[..];
    r := Report(done, f, x1, tried, last);
    if done.Some? {
      PassReverts(c, frozen, x0, h, k, r);
    } else {
      Finds(c, frozen, x0, h, stp, r);
    }
  }

  lemma Finds(c: Setup, frozen: set<nat>, x0: Vec, h: Head, stp: real, r: Report)
    requires |r.x| == |x0| == |h.x| == |h.d| && Evaluates(c.ev, |h.x|)
    requires AllAgree(r.tried, x0, frozen) && AgreesOn(r.x, x0, frozen)
    requires r.last == r.x && 0 < |r.tried| < c.p.maxLineSearch && r.x == r.tried[|r.tried| - 1]
    requires r.fx == c.ev.value(r.x) && r.tried[0] == FirstPoint(c.bound, h.x, h.d, h.step, c.p)
    requires StrongWolfe(c.ev, h.x, h.d, c.p, stp) && 0.0 < stp && r.x == Axpy(h.x, stp, h.d)
    requires Slope(c.ev, h.x, h.d, 0.0) < 0.0 && InBound(c.bound, h.x, h.d, c.p, stp)
    requires !c.watched && GoodFirst(c.ev, c.bound, h.x, h.d, h.step, c.p)
             ==> r.x == FirstPoint(c.bound, h.x, h.d, h.step, c.p)
    ensures FoundOk(c, frozen, x0, h, stp, r)
  {
    hide AllAgree, AgreesOn, FirstPoint, GoodFirst, Evaluates, StrongWolfe, Slope, Axpy, InBound;
  }

  /** The tests of a pass, and the next direction. */
  method TurnStep(c: Setup, x: Vec, fx: real, g: Vec, xp: Vec, gp: Vec, d: array<real>, alphas: array<real>,
                  ring: array<Pair>, end: nat, pf: array<real>, k: nat, ghost stp: real,
                  ghost frozen: set<nat>, ghost x0: Vec, ghost h: Head, ghost r: Report)
    returns (done: Option<Status>, end': nat)
    requires ring.Length == alphas.Length && d != alphas && d != pf && alphas != pf
    requires BuffersOk(c, frozen, x0, h, k) && FoundOk(c, frozen, x0, h, stp, r)
    requires r.x == x && r.fx == fx && g == c.ev.grad(x) && h.x == xp && h.g == gp && h.d == d[..]
    requires h.ring == ring[..] && h.end == end && h.pf == pf[..]
    modifies d, alphas, ring, pf
    ensures var (r', h') := (Report(done, fx, x, r.tried, r.last), Head(x, fx, g, d[..], 1.0, ring[..], end', pf[..]));
            && PassOk(c, frozen, x0, h, k, r')
            && (done.None? ==> Leads(c, frozen, x0, h, k, r', h'))
    ensures done != Some(Canceled)
  {
    BuffersMean(c, frozen, x0, h, k);
    CheckedParam(|x0|, c.p);
    ReadyMeans(c.ev, h, frozen, x0);
    FoundMeans(c, frozen, x0, h, stp, r);
    hide *;
    done, end' := TestAndTurn(c.ev, x, fx, g, xp, gp, d, alphas, ring, end, pf, k, stp, c.p, frozen);
    ghost var h' := Head(x, fx, g, d[..], 1.0, ring[..], end', pf[..]);
    ghost var r' := Report(done, fx, x, r.tried, r.last);
    Turns(c, frozen, x0, h, k, r', h');
    PassSteps(c, frozen, x0, h, k, stp, r, r', h');
  }

  lemma FoundMeans(c: Setup, frozen: set<nat>, x0: Vec, h: Head, stp: real, r: Report)
    requires FoundOk(c, frozen, x0, h, stp, r)
    ensures |r.x| == |x0| == |h.x| == |h.d| && Evaluates(c.ev, |h.x|) && |c.ev.grad(h.x)| == |x0| == |c.ev.grad(r.x)|
    ensures r.fx == c.ev.value(r.x) && r.last == r.x
    ensures StrongWolfe(c.ev, h.x, h.d, c.p, stp) && 0.0 < stp && r.x == Axpy(h.x, stp, h.d)
    ensures Slope(c.ev, h.x, h.d, 0.0) < 0.0 && InBound(c.bound, h.x, h.d, c.p, stp)
  {
    hide AllAgree, AgreesOn, FirstPoint, GoodFirst, StrongWolfe, Slope, Axpy, InBound;
  }

  lemma ReadyMeans(ev: Objective, h: Head, frozen: set<nat>, x0: Vec)
    requires Ready(ev, h.x, h.fx, h.g, h.d, h.step, |x0|, frozen, x0)
    ensures h.g == ev.grad(h.x) && ZeroOn(h.d, frozen) && Freezes(ev, |x0|, frozen)
  {
    hide Freezes, ZeroOn, Evaluates;
  }

  lemma PassReverts(c: Setup, frozen: set<nat>, x0: Vec, h: Head, k: nat, r: Report)
    requires |h.x| == |h.d| == |x0| == |r.x| && Evaluates(c.ev, |h.x|)
    requires AllAgree(r.tried, x0, frozen) && AgreesOn(r.x, x0, frozen)
    requires r.last == if |r.tried| == 0 then h.x else r.tried[|r.tried| - 1]
    requires r.fx == c.ev.value(r.last) && |r.tried| <= c.p.maxLineSearch
    requires |r.tried| > 0 ==> r.tried[0] == FirstPoint(c.bound, h.x, h.d, h.step, c.p)
    requires |r.tried| == 0 && c.bound.None? ==> r.done == Some(Canceled)
    requires r.done.Some? && SearchFailure(r.done.value) && r.x == h.x
    requires !c.watched ==> !GoodFirst(c.ev, c.bound, h.x, h.d, h.step, c.p)
    ensures PassOk(c, frozen, x0, h, k, r)
  {
    hide AllAgree, AgreesOn, FirstPoint, GoodFirst, Evaluates;
  }

  lemma Turns(c: Setup, frozen: set<nat>, x0: Vec, h: Head, k: nat, r: Report, h': Head)
    requires |r.x| == |x0| == |h.x| == |h.d| && Evaluates(c.ev, |h.x|) && 0 <= c.p.past == |h.pf|
    requires h'.x == r.x && h'.fx == r.fx && h'.step == 1.0 && h'.g == c.ev.grad(h'.x) && |h'.d| == |h'.x|
    requires |h'.ring| == |h.ring| && |h'.pf| == |h.pf|
    requires r.done == EndBy(c.p, r.x, c.ev.grad(r.x), r.fx, if 0 < c.p.past then h.pf[k % c.p.past] else 0.0, k)
    requires r.done.None? ==>
               && Memory(h'.ring, h'.end, if |h'.ring| <= k then |h'.ring| else k, |x0|, frozen)
               && Dot(h'.g, h'.d) < 0.0 && ZeroOn(h'.d, frozen)
               && (c.p.maxIterations > 0 ==> k + 1 <= c.p.maxIterations)
               && h'.pf == (if c.p.past == 0 then h.pf else h.pf[k % c.p.past := r.fx])
               && Prepared(c.ev, h.x, h'.x, h.ring, h.end, h'.ring, h'.end, k, h'.d)
    ensures TurnOk(c, frozen, x0, h, k, r, h') && r.done != Some(Canceled)
  {
    hide Memory, Dot, ZeroOn, Prepared, SmallGradient, Evaluates;
  }

  /** An accepted point, and the next direction if nothing ends the run. */
  lemma PassSteps(c: Setup, frozen: set<nat>, x0: Vec, h: Head, k: nat, stp: real, r: Report, r': Report, h': Head)
    requires BuffersOk(c, frozen, x0, h, k) && FoundOk(c, frozen, x0, h, stp, r)
    requires r' == Report(r'.done, r.fx, r.x, r.tried, r.last) && TurnOk(c, frozen, x0, h, k, r', h')
    ensures PassOk(c, frozen, x0, h, k, r')
    ensures r'.done.None? ==> Leads(c, frozen, x0, h, k, r', h')
  {
    BuffersMean(c, frozen, x0, h, k);
    FoundMeans(c, frozen, x0, h, stp, r);
    StepTaken(c, h, stp, r.x, |x0|);
    StepReports(c, frozen, x0, h, k, stp, r, r', h');
    if r'.done.None? {
      BuffersAgain(c, frozen, x0, h, k, stp, r, r', h');
    }
  }

  lemma StepReports(c: Setup, frozen: set<nat>, x0: Vec, h: Head, k: nat, stp: real, r: Report, r': Report, h': Head)
    requires FoundOk(c, frozen, x0, h, stp, r) && TurnOk(c, frozen, x0, h, k, r', h')
    requires r' == Report(r'.done, r.fx, r.x, r.tried, r.last)
    requires Stepped(c.ev, c.bound, c.p, Line(h.x, h.d, h.step), r.x) && Descends(c.ev, [h.x, r.x], 0.0 < c.p.fDecCoeff)
    ensures PassOk(c, frozen, x0, h, k, r')
  {
    EndByNotReverted(c.p, r'.x, c.ev.grad(r'.x), r'.fx, if 0 < c.p.past then h.pf[k % c.p.past] else 0.0, k);
    hide StrongWolfe, Slope, Axpy, Stepped, Dot, Prepared, Memory, ZeroOn, AllAgree, AgreesOn, FirstPoint, GoodFirst;
    hide InBound;
    hide Descends, Evaluates, EndBy, Reverted;
  }

  lemma BuffersAgain(c: Setup, frozen: set<nat>, x0: Vec, h: Head, k: nat, stp: real, r: Report, r': Report, h': Head)
    requires BuffersOk(c, frozen, x0, h, k) && FoundOk(c, frozen, x0, h, stp, r)
    requires r' == Report(r'.done, r.fx, r.x, r.tried, r.last) && TurnOk(c, frozen, x0, h, k, r', h')
    requires r'.done.None?
    ensures Leads(c, frozen, x0, h, k, r', h')
  {
    hide InBound, StrongWolfe, Slope, Axpy, Dot, Prepared, Memory, ZeroOn, AllAgree, AgreesOn, FirstPoint, GoodFirst;
    hide Evaluates, Freezes, CheckParam, EndBy;
    FoundMeans(c, frozen, x0, h, stp, r);
  }

  lemma EndByNotReverted(p: Param, x: Vec, g: Vec, fx: real, past: real, k: nat)
    ensures var done := EndBy(p, x, g, fx, past, k); !Reverted(done) && done != Some(AlreadyMinimized)
  {
  }

  lemma StepTaken(c: Setup, h: Head, stp: real, x: Vec, n: nat)
    requires |x| == n == |h.x| == |h.d| && Evaluates(c.ev, n) && CheckParam(n, c.p).None?
    requires StrongWolfe(c.ev, h.x, h.d, c.p, stp) && 0.0 < stp && x == Axpy(h.x, stp, h.d)
    requires Slope(c.ev, h.x, h.d, 0.0) < 0.0 && InBound(c.bound, h.x, h.d, c.p, stp)
    ensures Stepped(c.ev, c.bound, c.p, Line(h.x, h.d, h.step), x) && Descends(c.ev, [h.x, x], 0.0 < c.p.fDecCoeff)
  {
    WolfeDecreases(c.ev, h.x, h.d, c.p, stp);
    hide StrongWolfe, Slope, Axpy, InBound;
  }

  lemma PassEnds(c: Setup, frozen: set<nat>, t: Trace, x0: Vec, h: Head, r: Report)
    requires HeadOk(c, frozen, t, x0, h) && |r.x| == |x0| && Evaluates(c.ev, |x0|) && |h.x| == |h.d| == |x0|
    requires PassOk(c, frozen, x0, h, |t.accepted|, r)
    ensures var t' := Extended(t, Line(h.x, h.d, h.step), r);
            && |c.ev.grad(x0)| == |x0| && EndOk(c, frozen, t', x0, r.x, r.done, r.fx, 1) && |t'.points| > 0
            && r.last == t'.points[|t'.points| - 1]
            && (!Reverted(r.done) ==> |t'.accepted| == |t.accepted| + 1)
            && (r.done.None? ==> r.last == r.x)
  {
    BuffersMean(c, frozen, x0, h, |t.accepted|);
    ChainEnds(c, frozen, t, x0, h, r);
    FirstEnds(c, frozen, t, x0, h, r);
    CourseEndsPass(c, frozen, t, x0, h, r);
    OutcomeHasPoints(c, frozen, x0, r, Extended(t, Line(h.x, h.d, h.step), r));
    hide BuffersOk, ChainOk, FirstOk, TrackOk, FirstSearch, Outcome, Course, AllAgree, AgreesOn, Descends, EndBy;
    hide Stepped;
    hide Takes, FirstPoint, SearchFailure;
  }

  lemma CourseEndsPass(c: Setup, frozen: set<nat>, t: Trace, x0: Vec, h: Head, r: Report)
    requires TrackOk(c, t, h) && PassOk(c, frozen, x0, h, |t.accepted|, r) && 0 <= c.p.past == |h.pf|
    ensures var t' := Extended(t, Line(h.x, h.d, h.step), r); Course(c, r.done, t'.accepted, t'.lines)
  {
    hide TrackOk, PassOk, Course, Reverted, PairAt;
    if Reverted(r.done) {
      TrackReverts(c, frozen, t, x0, h, r);
    } else {
      TrackEnds(c, frozen, t, x0, h, r);
    }
  }

  lemma OutcomeHasPoints(c: Setup, frozen: set<nat>, x0: Vec, r: Report, t: Trace)
    requires Outcome(c.ev, c.p, frozen, x0, r.x, r.done, r.fx, t.accepted, t.points)
    ensures |t.points| > 0
  {
  }

  lemma EndMeans(c: Setup, frozen: set<nat>, t: Trace, x0: Vec, x: Vec, status: Option<Status>, fx: real, budget: nat)
    requires 0 < budget && EndOk(c, frozen, t, x0, x, status, fx, 1)
    ensures EndOk(c, frozen, t, x0, x, status, fx, budget)
  {
    hide Course, FirstPoint, Outcome;
  }

  lemma AdvancedMeans(c: Setup, frozen: set<nat>, t: Trace, x0: Vec, h: Head, r: Report, t': Trace, h': Head,
                      budget: nat)
    requires Advanced(c, frozen, t, x0, h, r, t', h') && 0 < budget
    ensures |t'.points| > 0 && r.last == t'.points[|t'.points| - 1]
    ensures r.done.Some? ==> EndOk(c, frozen, t', x0, r.x, r.done, r.fx, budget)
    ensures r.done.None? ==> HeadOk(c, frozen, t', x0, h') && |t'.accepted| == |t.accepted| + 1 && r.last == h'.x
  {
    hide HeadOk, EndOk;
    if r.done.Some? {
      EndMeans(c, frozen, t', x0, r.x, r.done, r.fx, budget);
    }
  }

  /** A run cut short by the budget. */
  lemma HeadMeansEnd(c: Setup, frozen: set<nat>, t: Trace, x0: Vec, h: Head, budget: nat)
    requires HeadOk(c, frozen, t, x0, h) && |t.accepted| == budget + 1
    ensures |t.points| > 0 && h.x == t.points[|t.points| - 1]
    ensures EndOk(c, frozen, t, x0, h.x, None, h.fx, budget)
  {
    BuffersMean(c, frozen, x0, h, |t.accepted|);
    CheckedParam(|x0|, c.p);
    HeadChain(c, frozen, t, x0, h);
    HeadCourse(c, t, h);
    hide ChainOk, TrackOk, BuffersOk, FirstPoint, CheckParam, Course, Outcome, Memory, Ready;
  }

  lemma EndParts(c: Setup, frozen: set<nat>, t: Trace, x0: Vec, x: Vec, status: Option<Status>, fx: real, budget: nat)
    requires EndOk(c, frozen, t, x0, x, status, fx, budget)
    ensures |c.ev.grad(x0)| == |x0| && Outcome(c.ev, c.p, frozen, x0, x, status, fx, t.accepted, t.points)
    ensures Course(c, status, t.accepted, t.lines)
    ensures FirstSearch(c.bound, c.p, budget, x0, Neg(c.ev.grad(x0)), c.step0, status, t.accepted, t.points)
  {
    hide Course, FirstSearch, Outcome;
  }

  lemma HeadChain(c: Setup, frozen: set<nat>, t: Trace, x0: Vec, h: Head)
    requires ChainOk(c, frozen, t, x0, h.x) && BuffersOk(c, frozen, x0, h, |t.accepted|)
    ensures Outcome(c.ev, c.p, frozen, x0, h.x, None, h.fx, t.accepted, t.points)
    ensures |t.points| > 0 && h.x == t.points[|t.points| - 1]
  {
    hide Memory, CheckParam, Freezes, Descends, Evaluates;
  }

  lemma HeadCourse(c: Setup, t: Trace, h: Head)
    requires TrackOk(c, t, h)
    ensures Course(c, None, t.accepted, t.lines)
  {
    hide SoFar, EndAt, LineOk, RingOk, PastOk, Dims;
  }

  lemma HeadAtFirst(c: Setup, frozen: set<nat>, h: Head)
    requires Ready(c.ev, h.x, h.fx, h.g, h.d, h.step, |h.x|, frozen, h.x) && CheckParam(|h.x|, c.p).None?
    requires |h.ring| == c.p.memSize && |h.pf| == c.p.past && h.end == 0 && h.step == c.step0
    requires h.d == Neg(h.g) && (0 < c.p.past ==> h.pf[0] == h.fx)
    ensures HeadOk(c, frozen, Trace([h.x], [h.x], []), h.x, h)
  {
    CheckedParam(|h.x|, c.p);
    MemoryEmpty(h.ring, |h.x|, frozen);
    SinglePointDescends(c.ev, h.x, 0.0 < c.p.fDecCoeff);
    CourseBegins(c, h.x, h.d, h.ring, h.pf, |h.x|);
    hide Memory, Descends, Stands, RingOk, PastOk, FirstPoint, CheckParam, Course;
  }

  lemma CourseBegins(c: Setup, x: Vec, d: Vec, ring: seq<Pair>, pf: seq<real>, n: nat)
    requires |x| == n && Evaluates(c.ev, n) && d == Neg(c.ev.grad(x)) && |ring| == c.p.memSize > 0
    requires |pf| == c.p.past && (0 < c.p.past ==> pf[0] == c.ev.value(x))
    ensures Stands(c, [x], [], Line(x, d, c.step0)) && Course(c, None, [x], [])
    ensures Dims(c.ev, [x]) && RingOk(c, [x], ring, 0) && PastOk(c, [x], pf)
  {
    if c.p.past > 0 {
      QuotientUnique(0, 0, c.p.past, 0);
    }
  }

  lemma EndByMeans(p: Param, x: Vec, g: Vec, fx: real, past: real, k: nat)
    ensures EndBy(p, x, g, fx, past, k) == Some(Convergence) ==> SmallGradient(x, g, p.gEpsilon)
    ensures EndBy(p, x, g, fx, past, k) == Some(MaximumIteration) ==> p.maxIterations != 0
  {
  }

  /** An accepted point: the run so far, its end if it ends, and the ring and past values for the next pass. */
  lemma CourseContinues(c: Setup, status: Option<Status>, points: seq<Vec>, lines: seq<Line>, line: Line, x: Vec,
                        fx: real, pf: seq<real>, ring: seq<Pair>, end: nat)
    requires Stands(c, points, lines, line) && Dims(c.ev, points) && |x| == |points[0]| && fx == c.ev.value(x)
    requires Stepped(c.ev, c.bound, c.p, line, x) && Takes(c, line, Some(x)) && !Reverted(status)
    requires RingOk(c, points, ring, end) && PastOk(c, points, pf)
    requires var past := if 0 < c.p.past then pf[|points| % c.p.past] else 0.0;
             status == EndBy(c.p, x, c.ev.grad(x), fx, past, |points|)
    ensures SoFar(c, points + [x], lines + [line]) && Course(c, status, points + [x], lines + [line])
    ensures status == EndAt(c, points + [x], |points|) && Dims(c.ev, points + [x])
    ensures RingOk(c, points + [x], ring[end := PairAt(c.ev, points[|points| - 1], x)], (end + 1) % |ring|)
    ensures PastOk(c, points + [x], if c.p.past <= 0 then pf else pf[|points| % c.p.past := c.ev.value(x)])
  {
    PastSeen(c, points, pf, x, fx);
    CourseGrows(c, points, lines, line, x);
    CourseEnds(c, status, points + [x], lines + [line]) by { hide SoFar, EndAt, EndBy; }
    RingGrows(c, points, ring, end, x);
    PastGrows(c, points, pf, x);
    hide SoFar, EndAt, EndBy, Stands, Course, RingOk, PastOk, PairAt;
  }

  /**
   The whole optimisation. `budget` bounds the number of passes examined, so with maxIterations == 0
   the result describes every prefix of a run that may not end; status is then None.
   `frozen` is any set of coordinates in which the gradient always vanishes.
   A refused parameter leaves x alone. Without a progress callback (`watched`) no run is cancelled.
   */
  method Optimize(ev: Objective, x: array<real>, bound: Option<(Vec, Vec) -> real>, invNorm: real -> real, p: Param,
                  watched: bool, budget: nat, ghost frozen: set<nat>)
    returns (status: Option<Status>, fx: real, last: Vec, ghost accepted: seq<Vec>, ghost points: seq<Vec>,
             ghost lines: seq<Line>)
    requires Evaluates(ev, x.Length) && Freezes(ev, x.Length, frozen)
    requires forall v: real | 0.0 < v :: 0.0 < invNorm(v)
    modifies x
    ensures CheckParam(x.Length, p).Some? ==>
              status == CheckParam(x.Length, p) && last == x[..] == old(x[..]) && points == []
    ensures CheckParam(x.Length, p).None? ==> Outcome(ev, p, frozen, old(x[..]), x[..], status, fx, accepted, points)
    ensures CheckParam(x.Length, p).None? ==> last == points[|points| - 1]
    ensures CheckParam(x.Length, p).None? ==>
              var d := Neg(ev.grad(old(x[..])));
              && FirstSearch(bound, p, budget, old(x[..]), d, invNorm(Dot(d, d)), status, accepted, points)
              && Course(Setup(ev, bound, p, watched, invNorm(Dot(d, d))), status, accepted, lines)
    ensures !watched ==> status != Some(Canceled)
    ensures status.None? ==> |accepted| == budget + 1
  {
    hide Mul, Axpy, Dot, StrongWolfe, Slope, Apply, SmallGradient, Memory, Descends, Ready, AllAgree, FirstSearch,
         Course;
    accepted, points, lines, fx, last := [], [], [], 0.0, x[..];
    status := CheckParam(x.Length, p);
    if status.Some? {
      return;
    }
    var g := new real[x.Length];
    fx := ev.value(x[..]);
    VecCpy(g, ev.grad(x[..]));
    if SmallGradient(x[..], g[..], p.gEpsilon) {
      accepted, points := [x[..]], [x[..]];
      OnePointOutcome(ev, p, frozen, x[..]);
      OnePointSearch(bound, p, budget, x[..], Neg(g[..]), invNorm(Dot(Neg(g[..]), Neg(g[..]))));
      OnePointCourse(Setup(ev, bound, p, watched, invNorm(Dot(Neg(g[..]), Neg(g[..])))), x[..]);
      status := Some(AlreadyMinimized);
      return;
    }
    ghost var t, x0 := Trace([], [], []), x[..];
    status, fx, last, t := Start(ev, x, fx, g, bound, invNorm, p, watched, budget, frozen);
    accepted, points, lines := t.accepted, t.points, t.lines;
    EndParts(Setup(ev, bound, p, watched, invNorm(Dot(Neg(ev.grad(x0)), Neg(ev.grad(x0))))), frozen, t, x0, x[..],
             status, fx, budget);
  }

  /** The memory is empty, and the first direction is that of steepest descent. */
  method Start(ev: Objective, x: array<real>, fx0: real, g: array<real>, bound: Option<(Vec, Vec) -> real>,
               invNorm: real -> real, p: Param, watched: bool, budget: nat, ghost frozen: set<nat>)
    returns (status: Option<Status>, fx: real, last: Vec, ghost t: Trace)
    requires Evaluates(ev, x.Length) && Freezes(ev, x.Length, frozen) && x != g && x.Length == g.Length
    requires CheckParam(x.Length, p).None? && forall v: real | 0.0 < v :: 0.0 < invNorm(v)
    requires fx0 == ev.value(x[..]) && g[..] == ev.grad(x[..]) && !SmallGradient(x[..], g[..], p.gEpsilon)
    modifies x, g
    ensures var d := Neg(ev.grad(old(x[..])));
            EndOk(Setup(ev, bound, p, watched, invNorm(Dot(d, d))), frozen, t, old(x[..]), x[..], status, fx, budget)
    ensures |t.points| > 0 && last == t.points[|t.points| - 1]
    ensures !watched ==> status != Some(Canceled)
    ensures status.None? ==> |t.accepted| == budget + 1
  {
    hide Mul, Axpy, Dot, StrongWolfe, Slope, Apply, SmallGradient, Memory, Descends, Ready, AllAgree, FirstSearch,
         Course;
    var m := p.memSize;
    var d, alphas := new real[x.Length], new real[m];
    var ring := new Pair[m](_ => Pair([], [], 0.0));
    var pf := new real[p.past];
    if 0 < p.past {
      pf[0] := fx0;
    }
    VecNcpy(d, g[..]);
    var dd := VecDot(d[..], d[..]);
    StartReady(ev, x[..], p.gEpsilon, invNorm(dd), frozen);
    var step := invNorm(dd);
    status, fx, last, t :=
      Iterate(ev, x, fx0, g, d, step, alphas, ring, pf, bound, p, watched, budget, frozen);
  }

  lemma OnePointCourse(c: Setup, x: Vec)
    requires Evaluates(c.ev, |x|)
    ensures Course(c, Some(AlreadyMinimized), [x], [])
  {
  }

  lemma OnePointSearch(bound: Option<(Vec, Vec) -> real>, p: Param, budget: nat, x: Vec, d: Vec, step: real)
    requires |x| == |d| && 0 < p.maxLineSearch
    ensures FirstSearch(bound, p, budget, x, d, step, Some(AlreadyMinimized), [x], [x])
  {
  }

  // ---------- a value that is not that of the returned point ----------

  const SQUARE := Objective(x => if |x| == 1 then Mul(x[0], x[0]) else 0.0, x => if |x| == 1 then [2.0 * x[0]] else x)
  const ONE_TRIAL := Param(1, 0.1, 0, 0.0, 0, 1, 0.0, 1.0, 0.1, 0.5, 0.0)

  /**
   With one evaluation a search, from 1 along the steepest descent of the square: 0 is tried, the search gives up, and
   the run returns the point 1 with the value at 0.
   */
  method ReportsStaleValue() returns (x: array<real>, status: Option<Status>, fx: real)
    ensures x[..] == [1.0] && SQUARE.value(x[..]) == 1.0 && Reverted(status)
    ensures fx == 0.0
  {
    x := new real[1] [1.0];
    var last;
    ghost var accepted, points, lines;
    var half := (v: real) => 0.5;
    SquareFacts();
    hide Outcome, FirstSearch, CheckParam, Evaluates, Freezes;
    assert x[..] == [1.0];
    status, fx, last, accepted, points, lines := Optimize(SQUARE, x, None, half, ONE_TRIAL, false, 1, {});
    StaleOutcome(x[..], status, fx, accepted, points);
  }

  lemma StaleOutcome(x: Vec, status: Option<Status>, fx: real, accepted: seq<Vec>, points: seq<Vec>)
    requires Outcome(SQUARE, ONE_TRIAL, {}, [1.0], x, status, fx, accepted, points)
    requires FirstSearch(None, ONE_TRIAL, 1, [1.0], [-2.0], 0.5, status, accepted, points)
    requires status != Some(Canceled)
    ensures x == [1.0] && Reverted(status) && fx == 0.0
  {
    SquareFacts();
    hide SmallGradient, FirstPoint, Dot, Descends;
  }

  lemma SquareFacts()
    ensures SQUARE.value([1.0]) == 1.0 && SQUARE.value([0.0]) == 0.0
    ensures SQUARE.grad([1.0]) == [2.0] && Neg([2.0]) == [-2.0]
    ensures Evaluates(SQUARE, 1) && Freezes(SQUARE, 1, {})
    ensures CheckParam(1, ONE_TRIAL).None? && !SmallGradient([1.0], [2.0], ONE_TRIAL.gEpsilon)
    ensures FirstPoint(None, [1.0], [-2.0], 0.5, ONE_TRIAL) == [0.0]
  {
    assert Dot([2.0], [2.0]) == 4.0 && Dot([1.0], [1.0]) == 1.0;
  }

  // ---------- the square is minimised in two steps ----------

  /** The default parameters. */
  const DEFAULT := Param(8, 0.00001, 0, 0.00001, 0, 40, 0.00000000000000000001, 100000000000000000000.0, 0.0001, 0.9,
                         0.0000000000000001)

  /** The first trial of steepest descent from a with step s. */
  function AfterFirst(a: real, s: real): real { a + Mul(s, -2.0 * a) }

  predicate Flat(a: real) { SmallGradient([a], [2.0 * a], DEFAULT.gEpsilon) }

  lemma OneAxis(u: real, v: real, a: real)
    ensures Dot([u], [v]) == Mul(u, v) && Axpy([u], a, [v]) == [u + Mul(a, v)] && Neg([u]) == [-u]
    ensures Sub([u], [v]) == [u - v]
    ensures SQUARE.value([u]) == Mul(u, u) && SQUARE.grad([u]) == [2.0 * u] && Evaluates(SQUARE, 1)
  {
    assert [u][..0] == [] && [v][..0] == [];
  }

  /** A step a along [d] from [u] as numbers. */
  lemma WolfeOnAxis(u: real, d: real, a: real)
    requires Mul(u + Mul(a, d), u + Mul(a, d)) <= Mul(u, u) + Mul(a, Mul(0.0001, Mul(2.0 * u, d)))
    requires Abs(Mul(2.0 * (u + Mul(a, d)), d)) <= Mul(0.9, -Mul(2.0 * u, d))
    ensures Evaluates(SQUARE, 1) && StrongWolfe(SQUARE, [u], [d], DEFAULT, a)
  {
    OneAxis(u, d, a);
    OneAxis(u, d, 0.0);
    OneAxis(u + Mul(a, d), d, 0.0);
    OneAxis(2.0 * (u + Mul(a, d)), d, 0.0);
    OneAxis(2.0 * u, d, 0.0);
    assert Mul(0.0, d) == 0.0;
    hide Mul, Dot, Axpy;
  }

  lemma FirstTrialGood(a: real, s: real)
    requires 0.05 <= s <= 0.95
    ensures Evaluates(SQUARE, 1) && GoodFirst(SQUARE, None, [a], [-2.0 * a], s, DEFAULT)
    ensures FirstPoint(None, [a], [-2.0 * a], s, DEFAULT) == [AfterFirst(a, s)]
  {
    FirstTrialNumbers(a, s);
    WolfeOnAxis(a, -2.0 * a, s);
    OneAxis(a, -2.0 * a, s);
    hide Mul, Axpy, StrongWolfe;
  }

  lemma FirstTrialNumbers(a: real, s: real)
    requires 0.05 <= s <= 0.95
    ensures var (d, b) := (-2.0 * a, AfterFirst(a, s));
            && Mul(b, b) <= Mul(a, a) + Mul(s, Mul(0.0001, Mul(2.0 * a, d)))
            && Abs(Mul(2.0 * b, d)) <= Mul(0.9, -Mul(2.0 * a, d))
  {
    var q, t, r := Mul(a, a), 1.0 - 2.0 * s, 1.0 - 0.0004 * s;
    var tt := Mul(t, t);
    hide Mul, AfterFirst, Abs;
    FirstTrialProducts(a, s, q, t, tt, r);
    FirstTrialRatio(s, t);
    SquareSign(a);
    ScaledLess(q, tt, r);
    ScaledLess(q, t, 0.9);
    ScaledLess(q, -0.9, t);
    FourTimes(Mul(q, t), Mul(q, 0.9));
  }

  lemma FourTimes(w: real, m: real)
    requires -m <= w <= m
    ensures Abs(-4.0 * w) <= 4.0 * m
  {
  }

  lemma FirstTrialRatio(s: real, t: real)
    requires 0.05 <= s <= 0.95 && t == 1.0 - 2.0 * s
    ensures Mul(t, t) <= 1.0 - 0.0004 * s
  {
    var r := s * s;
    SquareBelow(s, r);
    assert t * t == 1.0 - 4.0 * s + 4.0 * r;
  }

  lemma SquareBelow(s: real, r: real)
    requires 0.0 <= s <= 0.95 && r == s * s
    ensures r <= 0.95 * s
  {
    NotNegative(s, 0.95 - s);
    assert s * (0.95 - s) == 0.95 * s - r;
  }

  lemma NotNegative(u: real, v: real)
    requires 0.0 <= u && 0.0 <= v
    ensures 0.0 <= u * v
  {
  }

  lemma FirstTrialProducts(a: real, s: real, q: real, t: real, tt: real, r: real)
    requires q == Mul(a, a) && t == 1.0 - 2.0 * s && tt == Mul(t, t) && r == 1.0 - 0.0004 * s
    ensures var (d, b) := (-2.0 * a, AfterFirst(a, s));
            && Mul(b, b) == Mul(q, tt)
            && Mul(s, Mul(0.0001, Mul(2.0 * a, d))) == Mul(q, r) - q
            && Mul(2.0 * b, d) == -4.0 * Mul(q, t) && Mul(0.9, -Mul(2.0 * a, d)) == 4.0 * Mul(q, 0.9)
            && Mul(q, -0.9) == -Mul(q, 0.9)
  {
    var b := AfterFirst(a, s);
    assert b == a * t;
    assert b * b == (a * a) * (t * t);
    assert (2.0 * b) * (-2.0 * a) == -4.0 * ((a * a) * t);
  }

  lemma ScaledLess(q: real, u: real, v: real)
    requires 0.0 <= q && u <= v
    ensures Mul(q, u) <= Mul(q, v)
  {
    NotNegative(q, v - u);
    assert q * (v - u) == q * v - q * u;
  }

  /** The secant condition alone gives the second direction. */
  lemma SecondDirection(a: real, b: real, d: Vec)
    requires a != b && |d| == 1 && Evaluates(SQUARE, 1) && Secant(SQUARE, [a], [b], d)
    ensures d == [-b]
  {
    OneAxis(a, a, 0.0);
    OneAxis(b, a, 0.0);
    OneAxis(2.0 * b, 2.0 * a, 0.0);
    OneAxis(2.0 * b - 2.0 * a, d[0], 0.0);
    OneAxis(2.0 * b, b - a, 0.0);
    assert d == [d[0]];
    SecantOnAxis(a, b, d[0]);
    hide Mul, Dot;
  }

  lemma SecantOnAxis(a: real, b: real, d: real)
    requires a != b && Mul(2.0 * b - 2.0 * a, d) == -Mul(2.0 * b, b - a)
    ensures d == -b
  {
    assert (b - a) * (d + b) == 0.0;
    ZeroFactor(b - a, d + b);
  }

  lemma ZeroFactor(u: real, v: real)
    requires u * v == 0.0 && u != 0.0
    ensures v == 0.0
  {
  }

  lemma SecondTrialGood(b: real)
    ensures Evaluates(SQUARE, 1) && GoodFirst(SQUARE, None, [b], [-b], 1.0, DEFAULT)
    ensures FirstPoint(None, [b], [-b], 1.0, DEFAULT) == [0.0]
  {
    assert 0.0 <= b * b;
    assert b + Mul(1.0, -b) == 0.0 && Mul(2.0 * 0.0, -b) == 0.0;
    assert Mul(2.0 * b, -b) == -2.0 * (b * b);
    WolfeOnAxis(b, -b, 1.0);
    OneAxis(b, -b, 1.0);
    hide Mul, Axpy, StrongWolfe;
  }

  lemma MinimumFlat(a: real, s: real)
    requires !Flat(a) && 0.05 <= s
    ensures Flat(0.0) && AfterFirst(a, s) != a
  {
    OneAxis(0.0, 0.0, 0.0);
    OneAxis(a, a, 0.0);
    OneAxis(2.0 * a, 2.0 * a, 0.0);
    SquareSign(DEFAULT.gEpsilon);
    if a == 0.0 {
      assert Mul(0.0, 0.0) == 0.0;
    }
  }

  /** The first accepted point of any run on the square, if there is one or the search fails. */
  lemma FirstStepOnSquare(c: Setup, points: seq<Vec>, line: Line, next: Option<Vec>, a: real)
    requires c.ev == SQUARE && c.bound == None && c.p == DEFAULT && !c.watched && 0.05 <= c.step0 <= 0.95
    requires Dims(SQUARE, points) && points[0] == [a] && LineOk(c, points, 0, line) && Takes(c, line, next)
    ensures next == Some([AfterFirst(a, c.step0)])
  {
    OneAxis(a, a, 0.0);
    OneAxis(2.0 * a, a, 0.0);
    FirstTrialGood(a, c.step0);
    hide GoodFirst, FirstPoint, Turned, Secant;
  }

  lemma SecondStepOnSquare(c: Setup, points: seq<Vec>, line: Line, next: Option<Vec>, a: real, b: real)
    requires c.ev == SQUARE && c.bound == None && c.p == DEFAULT && !c.watched && a != b
    requires Dims(SQUARE, points) && |points| > 1 && points[0] == [a] && points[1] == [b]
    requires LineOk(c, points, 1, line) && Takes(c, line, next)
    ensures next == Some([0.0])
  {
    SecondDirection(a, b, line.d);
    SecondTrialGood(b);
    hide GoodFirst, FirstPoint, Turned, Secant;
  }

  lemma EndOnSquare(c: Setup, points: seq<Vec>, k: nat, a: real)
    requires c.ev == SQUARE && c.p == DEFAULT && k < |points| && points[k] == [a]
    ensures EndAt(c, points, k) == if Flat(a) then Some(Convergence) else None
  {
    OneAxis(a, a, 0.0);
    hide SmallGradient;
  }

  /** Every run that goes beyond the start, or whose search fails, visits these points. */
  lemma SoFarOnSquare(c: Setup, points: seq<Vec>, lines: seq<Line>, a: real)
    requires c.ev == SQUARE && c.bound == None && c.p == DEFAULT && !c.watched && 0.05 <= c.step0 <= 0.95 && !Flat(a)
    requires SoFar(c, points, lines) && points[0] == [a]
    ensures var b := AfterFirst(a, c.step0);
            && (|points| > 1 ==> points[1] == [b])
            && (|points| > 2 ==> points[2] == [0.0] && !Flat(b))
            && (|points| > 2 ==> EndAt(c, points, 2) == Some(Convergence)) && |points| <= 3
  {
    var b := AfterFirst(a, c.step0);
    MinimumFlat(a, c.step0);
    hide LineOk, Takes, Stepped, EndAt, AfterFirst, Flat;
    if |points| > 1 {
      assert LineDone(c, points, lines, 0);
      FirstStepOnSquare(c, points, lines[0], Some(points[1]), a);
    }
    if |points| > 2 {
      assert LineDone(c, points, lines, 1);
      SecondStepOnSquare(c, points, lines[1], Some(points[2]), a, b);
      EndOnSquare(c, points, 1, b);
      EndOnSquare(c, points, 2, 0.0);
    }
  }

  lemma CourseOnSquare(c: Setup, status: Option<Status>, points: seq<Vec>, lines: seq<Line>, a: real)
    requires c.ev == SQUARE && c.bound == None && c.p == DEFAULT && !c.watched && 0.05 <= c.step0 <= 0.95 && !Flat(a)
    requires Course(c, status, points, lines) && |points| > 0 && points[0] == [a]
    requires |points| == 1 ==> Reverted(status)
    requires status.None? ==> |points| > 2
    ensures status == Some(Convergence)
    ensures var b := AfterFirst(a, c.step0); points[|points| - 1] == if Flat(b) then [b] else [0.0]
  {
    var b := AfterFirst(a, c.step0);
    var k := |points| - 1;
    MinimumFlat(a, c.step0);
    hide LineOk, Takes, EndAt, AfterFirst, Flat, SoFar, Reverted;
    if Reverted(status) {
      var line := lines[|lines| - 1];
      CourseStands(c, status, points, lines);
      SoFarOnSquare(c, points, lines[..|lines| - 1], a);
      if k == 0 {
        FirstStepOnSquare(c, points, line, None, a);
      } else if k == 1 {
        SecondStepOnSquare(c, points, line, None, a, b);
      } else {
        assert false;
      }
    } else {
      SoFarOnSquare(c, points, lines, a);
      EndOnSquare(c, points, k, if k == 1 then b else 0.0);
    }
  }

  lemma CourseStands(c: Setup, status: Option<Status>, points: seq<Vec>, lines: seq<Line>)
    requires Course(c, status, points, lines) && Reverted(status)
    ensures |lines| > 0 && Dims(c.ev, points) && SoFar(c, points, lines[..|lines| - 1])
    ensures LineOk(c, points, |points| - 1, lines[|lines| - 1])
    ensures Evaluates(c.ev, |lines[|lines| - 1].x|) && Takes(c, lines[|lines| - 1], None)
    ensures |points| > 1 ==> EndAt(c, points, |points| - 1).None?
  {
    hide LineDone, EndAt, Takes, Turned, Secant;
  }

  /**
   From any start that is not flat already, with a first step of moderate size: the first trial is accepted, and the
   direction after it leads to the minimum in one step.
   */
  method MinimisesSquare(a: real, invNorm: real -> real, budget: nat)
    returns (x: array<real>, status: Option<Status>, fx: real)
    requires forall v: real | 0.0 < v :: 0.0 < invNorm(v)
    requires 0.05 <= invNorm(Mul(-2.0 * a, -2.0 * a)) <= 0.95 && !Flat(a) && 2 <= budget
    ensures status == Some(Convergence) && fx == SQUARE.value(x[..])
    ensures var b := AfterFirst(a, invNorm(Mul(-2.0 * a, -2.0 * a))); x[..] == if Flat(b) then [b] else [0.0]
  {
    hide *;
    x := new real[1] [a];
    var last;
    ghost var accepted, points, lines;
    SquareFacts();
    SquareRuns(a);
    DefaultChecked();
    assert x[..] == [a];
    status, fx, last, accepted, points, lines := Optimize(SQUARE, x, None, invNorm, DEFAULT, false, budget, {});
    var step := invNorm(Mul(-2.0 * a, -2.0 * a));
    SquareOutcome(Setup(SQUARE, None, DEFAULT, false, step), a, x[..], status, fx, accepted, points, lines, budget);
  }

  lemma DefaultChecked()
    ensures CheckParam(1, DEFAULT).None?
  {
  }

  lemma SquareRuns(a: real)
    ensures SQUARE.grad([a]) == [2.0 * a] && Neg([2.0 * a]) == [-2.0 * a]
    ensures Dot([-2.0 * a], [-2.0 * a]) == Mul(-2.0 * a, -2.0 * a)
  {
    OneAxis(a, 0.0, 0.0);
    OneAxis(2.0 * a, 0.0, 0.0);
    OneAxis(-2.0 * a, -2.0 * a, 0.0);
    hide Mul, Dot, Neg;
  }

  lemma SquareOutcome(c: Setup, a: real, x: Vec, status: Option<Status>, fx: real, accepted: seq<Vec>,
                      points: seq<Vec>, lines: seq<Line>, budget: nat)
    requires c.ev == SQUARE && c.bound == None && c.p == DEFAULT && !c.watched && 0.05 <= c.step0 <= 0.95 && !Flat(a)
    requires Outcome(SQUARE, DEFAULT, {}, [a], x, status, fx, accepted, points)
    requires Course(c, status, accepted, lines)
    requires FirstSearch(None, DEFAULT, budget, [a], [-2.0 * a], c.step0, status, accepted, points)
    requires 2 <= budget && (status.None? ==> |accepted| == budget + 1)
    ensures status == Some(Convergence) && fx == SQUARE.value(x)
    ensures var b := AfterFirst(a, c.step0); x == if Flat(b) then [b] else [0.0]
  {
    OneAxis(a, a, 0.0);
    assert !SmallGradient([a], [2.0 * a], DEFAULT.gEpsilon);
    hide SmallGradient, FirstPoint, Descends, AllAgree, Course, AfterFirst, Flat, Evaluates;
    CourseOnSquare(c, status, accepted, lines, a);
  }

  /** From 3 with step 1/6 the run accepts 2 and then 0. */
  method MinimisesFromThree() returns (x: array<real>, status: Option<Status>, fx: real)
    ensures x[..] == [0.0] && fx == 0.0 && status == Some(Convergence)
  {
    OneAxis(3.0, 3.0, 0.0);
    OneAxis(6.0, 6.0, 0.0);
    OneAxis(2.0, 2.0, 0.0);
    OneAxis(4.0, 4.0, 0.0);
    var sixth := (v: real) => 1.0 / 6.0;
    x, status, fx := MinimisesSquare(3.0, sixth, 2);
  }

  lemma OnePointOutcome(ev: Objective, p: Param, frozen: set<nat>, x: Vec)
    requires SmallGradient(x, ev.grad(x), p.gEpsilon)
    ensures Outcome(ev, p, frozen, x, x, Some(AlreadyMinimized), ev.value(x), [x], [x])
  {
  }

  lemma SinglePointDescends(ev: Objective, x: Vec, strictly: bool)
    ensures Descends(ev, [x], strictly)
  {
  }

  /** The steepest descent start of the main loop. */
  lemma StartReady(ev: Objective, x: Vec, eps: real, step: real, frozen: set<nat>)
    requires Evaluates(ev, |x|) && Freezes(ev, |x|, frozen) && !SmallGradient(x, ev.grad(x), eps)
    requires Dot(Neg(ev.grad(x)), Neg(ev.grad(x))) > 0.0 ==> 0.0 < step
    ensures Ready(ev, x, ev.value(x), ev.grad(x), Neg(ev.grad(x)), step, |x|, frozen, x)
  {
    hide SmallGradient, Dot;
    var g := ev.grad(x);
    LargeGradientNonZero(x, g, eps);
    SteepestDescends(g);
    FirstStep(g, frozen);
  }

  lemma FirstStep(g: Vec, frozen: set<nat>)
    requires !IsZero(g) && ZeroOn(g, frozen)
    ensures Dot(Neg(g), Neg(g)) > 0.0 && ZeroOn(Neg(g), frozen)
  {
    var i :| 0 <= i < |g| && g[i] != 0.0;
    assert Neg(g)[i] != 0.0;
    DotSelf(Neg(g));
    forall i | i in frozen
      ensures ZeroAt(Neg(g), i)
    {
      assert ZeroAt(g, i);
    }
  }

  lemma MemoryEmpty(ring: seq<Pair>, n: nat, frozen: set<nat>)
    requires |ring| > 0
    ensures Memory(ring, 0, 0, n, frozen)
  {
  }
}
