/**
 The Moré-Thuente line search of lbfgs.hpp over exact reals. The interpolated trial value of
 each update is arbitrary, so every result holds for any interpolation formula.
 */
module LineSearch {
  import opened Options
  import opened Vectors

  datatype Status =
    | Convergence | Stop | AlreadyMinimized
    | Canceled
    | InvalidN | InvalidMemSize | InvalidGEpsilon | InvalidTestPeriod | InvalidDelta | InvalidMinStep
    | InvalidMaxStep | InvalidFDecCoeff | InvalidSCurvCoeff | InvalidXtol | InvalidMaxLineSearch
    | OutOfInterval | IncorrectTMinMax | RoundingError | MinimumStep | MaximumStep
    | MaximumLineSearch | MaximumIteration | WidthTooSmall | InvalidParameters | IncreaseGradient

  /** The statuses a line search can end with. */
  predicate SearchFailure(status: Status) {
    status !in {Convergence, Stop, AlreadyMinimized, MaximumIteration}
  }

  datatype Param = Param(
    memSize: int, gEpsilon: real, past: int, delta: real, maxIterations: int, maxLineSearch: int,
    minStep: real, maxStep: real, fDecCoeff: real, sCurvCoeff: real, xtol: real)

  /** The evaluation callback as a pure function. */
  datatype Objective = Objective(value: Vec -> real, grad: Vec -> Vec)

  ghost predicate Evaluates(ev: Objective, n: nat) {
    forall x: Vec | |x| == n :: |ev.grad(x)| == n
  }

  /** One end of the interval of uncertainty: step, function value, directional derivative. */
  datatype End = End(t: real, f: real, d: real)

  ghost function Phi(ev: Objective, xp: Vec, s: Vec, a: real): real
    requires |xp| == |s|
  {
    ev.value(Axpy(xp, a, s))
  }

  ghost function Slope(ev: Objective, xp: Vec, s: Vec, a: real): real
    requires |xp| == |s| && Evaluates(ev, |xp|)
  {
    Dot(ev.grad(Axpy(xp, a, s)), s)
  }

  ghost predicate OnCurve(ev: Objective, xp: Vec, s: Vec, e: End)
    requires |xp| == |s| && Evaluates(ev, |xp|)
  {
    e.f == Phi(ev, xp, s, e.t) && e.d == Slope(ev, xp, s, e.t)
  }

  function Min(a: real, b: real): real { if a <= b then a else b }
  function Max(a: real, b: real): real { if a >= b then a else b }
  function Abs(a: real): real { if a < 0.0 then -a else a }

  /** dt * (dx / |dx|) < 0, where 0/0 compares false. */
  predicate OppositeSlopes(dx: real, dt: real) {
    dx != 0.0 && Mul(dt, dx) < 0.0
  }

  // ---------- one interval update ----------

  /** The input checks, in order; a failed check leaves every variable alone. */
  function UpdateError(x: End, y: End, t: real, d: real, tmin: real, tmax: real, brackt: bool): (e: Option<Status>)
  {
    if !brackt then None
    else if t <= Min(x.t, y.t) || Max(x.t, y.t) <= t then Some(OutOfInterval)
    else if 0.0 <= Mul(d, t - x.t) then Some(IncreaseGradient)
    else if tmax < tmin then Some(IncorrectTMinMax)
    else None
  }

  datatype Bracket = Bracket(x: End, y: End, brackt: bool)

  /** The interval of uncertainty after trial point t. */
  function Narrow(x: End, y: End, t: End, brackt: bool): Bracket {
    if x.f < t.f then Bracket(x, t, true)
    else if OppositeSlopes(x.d, t.d) then Bracket(t, x, true)
    else Bracket(t, y, brackt)
  }

  /** The clipped trial value, kept off the far end of a bracketed interval. */
  function Safeguard(newt: real, b: Bracket, tmin: real, tmax: real, bound: bool): real {
    var hi := if tmax < newt then tmax else newt;
    var clipped := if hi < tmin then tmin else hi;
    var far := b.x.t + 0.66 * (b.y.t - b.x.t);
    if !(b.brackt && bound) then clipped
    else if b.x.t < b.y.t then (if far < clipped then far else clipped)
    else (if clipped < far then far else clipped)
  }

  predicate StrictlyInside(b: Bracket, a: Bracket) {
    && Min(a.x.t, a.y.t) <= Min(b.x.t, b.y.t)
    && Max(b.x.t, b.y.t) <= Max(a.x.t, a.y.t)
    && Max(b.x.t, b.y.t) - Min(b.x.t, b.y.t) < Max(a.x.t, a.y.t) - Min(a.x.t, a.y.t)
  }

  /** The slope at x does not rise towards t. */
  predicate Downhill(x: End, t: real) { Mul(x.d, t - x.t) <= 0.0 }

  /** An interval whose better end is x, with the function falling from x into it. */
  predicate Sound(b: Bracket) { b.brackt ==> Downhill(b.x, b.y.t) && b.x.f <= b.y.f }

  lemma SignProduct(a: real, b: real)
    ensures Mul(a, b) > 0.0 <==> (a > 0.0 && b > 0.0) || (a < 0.0 && b < 0.0)
    ensures Mul(a, b) < 0.0 <==> (a > 0.0 && b < 0.0) || (a < 0.0 && b > 0.0)
  {
    if a > 0.0 && b > 0.0 { ProductPositive(a, b); }
    if a < 0.0 && b < 0.0 { ProductPositive(-a, -b); }
    if a > 0.0 && b < 0.0 { ProductPositive(a, -b); }
    if a < 0.0 && b > 0.0 { ProductPositive(-a, b); }
    assert Mul(a, -b) == -Mul(a, b) && Mul(-a, b) == -Mul(a, b) && Mul(-a, -b) == Mul(a, b);
    assert a == 0.0 || b == 0.0 ==> Mul(a, b) == 0.0;
  }

  /** The update keeps a bracket around lower values: the slope at its better end points into it. */
  lemma NarrowKeepsSound(x: End, y: End, t: End, brackt: bool)
    requires Sound(Bracket(x, y, brackt)) && Downhill(x, t.t)
    requires brackt ==> Min(x.t, y.t) < t.t < Max(x.t, y.t) && Mul(x.d, t.t - x.t) < 0.0
    ensures Sound(Narrow(x, y, t, brackt))
  {
    SignProduct(x.d, t.t - x.t);
    SignProduct(x.d, y.t - x.t);
    SignProduct(t.d, x.d);
    SignProduct(t.d, x.t - t.t);
    SignProduct(t.d, y.t - t.t);
    hide Mul;
  }

  /** The interval update does not depend on the trial value chosen next. */
  method UpdateTrialInterval(x: End, y: End, t: End, tmin: real, tmax: real, brackt: bool)
    returns (error: Option<Status>, b: Bracket, next: real)
    ensures error == UpdateError(x, y, t.t, x.d, tmin, tmax, brackt)
    ensures error.Some? ==> b == Bracket(x, y, brackt) && next == t.t
    ensures error.None? ==> b == Narrow(x, y, t, brackt) && b.x.f <= x.f
    ensures error.None? && brackt ==> b.brackt && StrictlyInside(b, Bracket(x, y, brackt))
    ensures error.None? && Sound(Bracket(x, y, brackt)) && (!brackt ==> Downhill(x, t.t)) ==> Sound(b)
    ensures error.None? && 0.0 <= tmin && 0.0 <= x.t && 0.0 <= y.t && 0.0 <= t.t ==> 0.0 <= next
    ensures error.None? && tmin <= tmax && tmin <= b.x.t <= tmax && tmin <= b.y.t <= tmax ==> tmin <= next <= tmax
  {
    error := UpdateError(x, y, t.t, x.d, tmin, tmax, brackt);
    b := Bracket(x, y, brackt);
    next := t.t;
    if error.Some? {
      return;
    }
    if Sound(b) && (!brackt ==> Downhill(x, t.t)) {
      NarrowKeepsSound(x, y, t, brackt);
    }
    hide Sound;
    var newt: real := *;
    var bound: bool;
    if x.f < t.f {
      bound := true;
    } else if OppositeSlopes(x.d, t.d) {
      bound := false;
    } else if Abs(t.d) < Abs(x.d) {
      bound := true;
    } else {
      bound := false;
      if !brackt {
        newt := if x.t < t.t then tmax else tmin;
      }
    }
    if x.f < t.f {
      b := Bracket(x, t, true);
    } else if OppositeSlopes(x.d, t.d) {
      b := Bracket(t, x, true);
    } else {
      b := Bracket(t, y, brackt);
    }
    next := Safeguard(newt, b, tmin, tmax, bound);
  }

  /** The modified function psi(a) = phi(a) - a * c, on one end. */
  function Shift(e: End, c: real): End { End(e.t, e.f - Mul(e.t, c), e.d - c) }
  function Unshift(e: End, c: real): End { End(e.t, e.f + Mul(e.t, c), e.d + c) }

  // ---------- the search ----------

  /** One evaluation: the bracket it was made from, and the step evaluated. */
  datatype Trial = Trial(b: Bracket, stp: real, updateFailed: bool)

  ghost predicate GoodTrial(ev: Objective, xp: Vec, s: Vec, t: Trial)
    requires |xp| == |s| && Evaluates(ev, |xp|)
  {
    && OnCurve(ev, xp, s, t.b.x) && OnCurve(ev, xp, s, t.b.y)
    && 0.0 <= t.b.x.t && 0.0 <= t.b.y.t && 0.0 <= t.stp
    && (t.updateFailed ==> t.b.brackt)
  }

  /** From one evaluation to the next the best value never rises and a bracket strictly shrinks. */
  ghost predicate Follows(a: Trial, b: Trial) {
    && b.b.x.f <= a.b.x.f
    && (a.b.brackt ==> b.b.brackt)
    && (a.b.brackt && !b.updateFailed ==> StrictlyInside(b.b, a.b))
    && (b.updateFailed ==> b.b == a.b)
    && !a.updateFailed
  }

  ghost predicate GoodSearch(ev: Objective, xp: Vec, s: Vec, trials: seq<Trial>)
    requires |xp| == |s| && Evaluates(ev, |xp|)
  {
    && (forall i | 0 <= i < |trials| :: GoodTrial(ev, xp, s, trials[i]))
    && (forall i | 0 < i < |trials| :: Follows(trials[i - 1], trials[i]))
    && (|trials| > 0 ==> trials[0].b.x.t == 0.0)
  }

  /** Over the whole search the best value is non-increasing. */
  lemma {:induction false} BestNeverRises(ev: Objective, xp: Vec, s: Vec, trials: seq<Trial>, i: nat, j: nat)
    requires |xp| == |s| && Evaluates(ev, |xp|) && GoodSearch(ev, xp, s, trials)
    requires i <= j < |trials|
    ensures trials[j].b.x.f <= trials[i].b.x.f
    ensures Phi(ev, xp, s, trials[j].b.x.t) <= Phi(ev, xp, s, trials[i].b.x.t)
    decreases j
  {
    if i < j {
      BestNeverRises(ev, xp, s, trials, i, j - 1);
      assert Follows(trials[j - 1], trials[j]);
    }
    assert GoodTrial(ev, xp, s, trials[i]) && GoodTrial(ev, xp, s, trials[j]);
  }

  /** Over the whole search a bracket stays a bracket and its ends are nested. */
  lemma {:induction false} BracketsNested(ev: Objective, xp: Vec, s: Vec, trials: seq<Trial>, i: nat, j: nat)
    requires |xp| == |s| && Evaluates(ev, |xp|) && GoodSearch(ev, xp, s, trials)
    requires i < j < |trials| && trials[i].b.brackt && !trials[j].updateFailed
    ensures trials[j].b.brackt && StrictlyInside(trials[j].b, trials[i].b)
    decreases j
  {
    assert Follows(trials[j - 1], trials[j]);
    if i < j - 1 {
      BracketsNested(ev, xp, s, trials, i, j - 1);
    }
  }

  /** What one evaluation is judged by; None means the search goes on. */
  datatype Judged = Judged(
    brackt: bool, stmin: real, stmax: real, failed: bool, stp: real, f: real, dg: real, count: int)

  datatype Verdict = Continue | Found | Failed(status: Status)

  function Judge(j: Judged, finit: real, dginit: real, stpmin: real, stpmax: real, p: Param): Verdict {
    var dgtest := Mul(p.fDecCoeff, dginit);
    var ftest1 := finit + Mul(j.stp, dgtest);
    if j.brackt && (j.stp <= j.stmin || j.stmax <= j.stp || j.failed) then Failed(RoundingError)
    else if j.stp == stpmax && j.f <= ftest1 && j.dg <= dgtest then Failed(MaximumStep)
    else if j.stp == stpmin && (ftest1 < j.f || dgtest <= j.dg) then Failed(MinimumStep)
    else if j.brackt && j.stmax - j.stmin <= Mul(p.xtol, j.stmax) then Failed(WidthTooSmall)
    else if p.maxLineSearch <= j.count then Failed(MaximumLineSearch)
    else if j.f <= ftest1 && Abs(j.dg) <= Mul(p.sCurvCoeff, -dginit) then Found
    else Continue
  }

  /** Sufficient decrease and strong curvature at step a. */
  ghost predicate StrongWolfe(ev: Objective, xp: Vec, s: Vec, p: Param, a: real)
    requires |xp| == |s| && Evaluates(ev, |xp|)
  {
    && Phi(ev, xp, s, a) <= Phi(ev, xp, s, 0.0) + Mul(a, Mul(p.fDecCoeff, Slope(ev, xp, s, 0.0)))
    && Abs(Slope(ev, xp, s, a)) <= Mul(p.sCurvCoeff, -Slope(ev, xp, s, 0.0))
  }

  /** Whether the step a lowers the objective in proportion to the slope at zero. */
  ghost predicate Sufficient(ev: Objective, xp: Vec, s: Vec, p: Param, a: real)
    requires |xp| == |s| && Evaluates(ev, |xp|)
  {
    Phi(ev, xp, s, a) <= Phi(ev, xp, s, 0.0) + Mul(a, Mul(p.fDecCoeff, Slope(ev, xp, s, 0.0)))
  }

  /** The limits of the steps of one search. */
  datatype Limits = Limits(lo: real, hi: real)

  /** What each way of giving up says about the count-th trial. */
  ghost predicate GivesUp(status: Status, ev: Objective, xp: Vec, s: Vec, t: Trial, count: int, l: Limits, p: Param)
    requires |xp| == |s| && Evaluates(ev, |xp|)
  {
    var (left, right) := (Min(t.b.x.t, t.b.y.t), Max(t.b.x.t, t.b.y.t));
    var (slope, wanted) := (Slope(ev, xp, s, t.stp), Mul(p.fDecCoeff, Slope(ev, xp, s, 0.0)));
    match status
    case RoundingError => t.b.brackt && (t.stp <= left || right <= t.stp || t.updateFailed)
    case MaximumStep => t.stp == l.hi && Sufficient(ev, xp, s, p, t.stp) && slope <= wanted
    case MinimumStep => t.stp == l.lo && (!Sufficient(ev, xp, s, p, t.stp) || wanted <= slope)
    case WidthTooSmall => t.b.brackt && right - left <= Mul(p.xtol, right)
    case MaximumLineSearch => p.maxLineSearch <= count
    case _ => false
  }

  ghost predicate NoReason(ev: Objective, xp: Vec, s: Vec, t: Trial, count: int, l: Limits, p: Param)
    requires |xp| == |s| && Evaluates(ev, |xp|)
  {
    forall status :: !GivesUp(status, ev, xp, s, t, count, l, p)
  }

  /** The ways of giving up in the order in which they are tested. */
  function Rank(status: Status): nat {
    match status
    case RoundingError => 0
    case MaximumStep => 1
    case MinimumStep => 2
    case WidthTooSmall => 3
    case _ => 4
  }

  /** A trial is accepted exactly when it satisfies the strong Wolfe conditions and nothing makes the search give up. */
  ghost predicate Decided(verdict: Verdict, ev: Objective, xp: Vec, s: Vec, t: Trial, count: int, l: Limits, p: Param)
    requires |xp| == |s| && Evaluates(ev, |xp|)
  {
    match verdict
    case Found => StrongWolfe(ev, xp, s, p, t.stp) && NoReason(ev, xp, s, t, count, l, p)
    case Continue => !StrongWolfe(ev, xp, s, p, t.stp) && NoReason(ev, xp, s, t, count, l, p)
    case Failed(status) =>
      && GivesUp(status, ev, xp, s, t, count, l, p)
      && forall other :: GivesUp(other, ev, xp, s, t, count, l, p) ==> Rank(status) <= Rank(other)
  }

  ghost predicate Undecided(ev: Objective, xp: Vec, s: Vec, trials: seq<Trial>, l: Limits, p: Param)
    requires |xp| == |s| && Evaluates(ev, |xp|)
  {
    forall i | 0 <= i < |trials| :: Decided(Continue, ev, xp, s, trials[i], i + 1, l, p)
  }

  /** How a search ends: the last trial decides it, unless it is cancelled, and no earlier one did. */
  ghost predicate Ends(verdict: Verdict, ev: Objective, xp: Vec, s: Vec, trials: seq<Trial>, l: Limits, p: Param)
    requires |xp| == |s| && Evaluates(ev, |xp|)
  {
    && (|trials| > 0 ==>
          Undecided(ev, xp, s, trials[..|trials| - 1], l, p) &&
          var last := if verdict == Failed(Canceled) then Continue else verdict;
          Decided(last, ev, xp, s, trials[|trials| - 1], |trials|, l, p))
  }

  /** Where a trial may lie: within the limits, and inside the bracket or at its better end to finish. */
  predicate Placed(t: Trial, count: int, l: Limits, p: Param) {
    var (left, right) := (Min(t.b.x.t, t.b.y.t), Max(t.b.x.t, t.b.y.t));
    var last := t.updateFailed || p.maxLineSearch <= count || right - left <= Mul(p.xtol, right);
    if !t.b.brackt then l.lo <= t.stp <= l.hi
    else if last then t.stp == t.b.x.t
    else t.stp == t.b.x.t || (left < t.stp < right && l.lo <= t.stp <= l.hi)
  }

  ghost predicate AllPlaced(trials: seq<Trial>, l: Limits, p: Param) {
    l.lo <= l.hi ==> forall i | 0 <= i < |trials| :: Placed(trials[i], i + 1, l, p)
  }

  /** A first trial inside the limits that satisfies the strong Wolfe conditions ends the search. */
  lemma FirstGoodStepTaken(verdict: Verdict, ev: Objective, xp: Vec, s: Vec, trials: seq<Trial>, l: Limits, p: Param)
    requires |xp| == |s| && Evaluates(ev, |xp|) && Ends(verdict, ev, xp, s, trials, l, p)
    requires |trials| > 0 && !trials[0].b.brackt && verdict != Failed(Canceled) && 1 < p.maxLineSearch
    requires l.lo < trials[0].stp < l.hi && StrongWolfe(ev, xp, s, p, trials[0].stp)
    ensures verdict == Found && |trials| == 1
  {
    hide StrongWolfe, Slope, Sufficient;
  }

  /** An accepted step is within the limits. */
  lemma FoundWithin(ev: Objective, xp: Vec, s: Vec, trials: seq<Trial>, l: Limits, p: Param)
    requires |xp| == |s| && Evaluates(ev, |xp|) && Ends(Found, ev, xp, s, trials, l, p)
    requires |trials| > 0 && AllPlaced(trials, l, p) && l.lo <= l.hi
    ensures l.lo <= trials[|trials| - 1].stp <= l.hi
  {
    var n := |trials| - 1;
    assert Placed(trials[n], n + 1, l, p) && !GivesUp(RoundingError, ev, xp, s, trials[n], n + 1, l, p);
    hide StrongWolfe, Slope, Sufficient, Mul;
  }

  /**
   A search that fails although its last trial satisfies the strong Wolfe conditions: the trial sat on a limit, was the
   last one allowed, or was bracketed and at an end, after a failed update, or in too narrow an interval.
   */
  lemma GoodStepRefused(verdict: Verdict, ev: Objective, xp: Vec, s: Vec, trials: seq<Trial>, l: Limits, p: Param)
    requires |xp| == |s| && Evaluates(ev, |xp|) && Ends(verdict, ev, xp, s, trials, l, p)
    requires |trials| > 0 && verdict.Failed? && StrongWolfe(ev, xp, s, p, trials[|trials| - 1].stp)
    ensures var t := trials[|trials| - 1];
            var (left, right) := (Min(t.b.x.t, t.b.y.t), Max(t.b.x.t, t.b.y.t));
            || t.stp == l.lo || t.stp == l.hi || p.maxLineSearch <= |trials|
            || (t.b.brackt && (t.stp <= left || right <= t.stp || t.updateFailed || right - left <= Mul(p.xtol, right)))
  {
    hide StrongWolfe, Slope, Sufficient, Mul;
  }

  lemma AxpyZero(xp: Vec, s: Vec)
    requires |xp| == |s|
    ensures Axpy(xp, 0.0, s) == xp
  {
  }

  lemma MulMonotone(a: real, b: real, c: real)
    requires a < b && c > 0.0
    ensures Mul(a, c) < Mul(b, c)
  {
    ProductPositive(b - a, c);
    assert (b - a) * c == b * c - a * c;
  }

  /** The strong Wolfe conditions along a descent direction rule out the zero step. */
  lemma WolfeStepPositive(ev: Objective, xp: Vec, s: Vec, p: Param, a: real)
    requires |xp| == |s| && Evaluates(ev, |xp|)
    requires StrongWolfe(ev, xp, s, p, a) && 0.0 <= a
    requires Slope(ev, xp, s, 0.0) < 0.0 && p.sCurvCoeff < 1.0
    ensures a > 0.0
  {
    if a == 0.0 {
      MulMonotone(p.sCurvCoeff, 1.0, -Slope(ev, xp, s, 0.0));
    }
  }

  /** x <- xp + stp * s; evaluate value, gradient and slope there. */
  method EvaluateAt(ev: Objective, x: array<real>, g: array<real>, xp: Vec, s: Vec, stp: real)
    returns (f: real, dg: real)
    requires Evaluates(ev, |xp|) && x.Length == g.Length == |xp| == |s| && x != g
    modifies x, g
    ensures x[..] == Axpy(xp, stp, s) && g[..] == ev.grad(x[..])
    ensures f == ev.value(x[..]) == Phi(ev, xp, s, stp) && dg == Slope(ev, xp, s, stp)
  {
    VecCpy(x, xp);
    VecAdd(x, s, stp);
    f := ev.value(x[..]);
    VecCpy(g, ev.grad(x[..]));
    dg := VecDot(g[..], s);
  }

  /** The interval the next trial must lie in. */
  function TrialRange(b: Bracket, stp: real): (real, real) {
    if b.brackt then (Min(b.x.t, b.y.t), Max(b.x.t, b.y.t))
    else (b.x.t, stp + 4.0 * (stp - b.x.t))
  }

  /** Clip to [stpmin, stpmax]; fall back to the best step when the search is about to end. */
  function ClipStep(b: Bracket, stp: real, range: (real, real), stpmin: real, stpmax: real,
                    count: int, failed: bool, p: Param): real {
    var lo := if stp < stpmin then stpmin else stp;
    var clipped := if stpmax < lo then stpmax else lo;
    if b.brackt && (clipped <= range.0 || range.1 <= clipped || p.maxLineSearch <= count + 1 || failed
                    || range.1 - range.0 <= Mul(p.xtol, range.1))
    then b.x.t else clipped
  }

  /** The first step tried: the wanted one, clipped. */
  function FirstTrial(stp: real, stpmin: real, stpmax: real): real {
    var lo := if stp < stpmin then stpmin else stp;
    if stpmax < lo then stpmax else lo
  }

  lemma WithinLimits(stp: real, stpmin: real, stpmax: real)
    ensures stpmin <= stp <= stpmax ==> FirstTrial(stp, stpmin, stpmax) == stp
  {
  }

  lemma ClipUnbracketed(b: Bracket, stp: real, range: (real, real), stpmin: real, stpmax: real,
                        count: int, failed: bool, p: Param)
    requires !b.brackt
    ensures ClipStep(b, stp, range, stpmin, stpmax, count, failed, p) == FirstTrial(stp, stpmin, stpmax)
  {
  }

  /** An interval through the modified function. */
  function Seen(b: Bracket, c: real): Bracket { Bracket(Shift(b.x, c), Shift(b.y, c), b.brackt) }

  lemma SeenPlainly(b: Bracket, x: End, t: End)
    ensures Seen(b, 0.0) == b && Shift(x, 0.0) == x
  {
  }

  lemma SeenAgain(b: Bracket, c: real)
    ensures Seen(Bracket(Unshift(b.x, c), Unshift(b.y, c), b.brackt), c) == b
  {
  }

  /** The update of one iteration, through the modified function or not. */
  method UpdateInterval(b: Bracket, t: End, range: (real, real), dgtest: real, modified: bool)
    returns (error: Option<Status>, b': Bracket, next: real)
    ensures error.Some? ==> b.brackt && b' == b && next == t.t
    ensures error.None? ==> b' in {Bracket(b.x, t, true), Bracket(t, b.x, true), Bracket(t, b.y, b.brackt)}
    ensures error.None? && b.brackt ==> StrictlyInside(b', b)
    // on the function in use: the objective, or the modified one
    ensures var c := if modified then dgtest else 0.0;
            error.None? && Sound(Seen(b, c)) && (!b.brackt ==> Downhill(Shift(b.x, c), t.t)) ==> Sound(Seen(b', c))
    ensures (modified ==> t.f <= b.x.f) ==> b'.x.f <= b.x.f
    ensures 0.0 <= range.0 && 0.0 <= b.x.t && 0.0 <= b.y.t && 0.0 <= t.t ==> 0.0 <= next
  {
    SeenPlainly(b, b.x, t);
    hide Mul, Sound, Downhill;
    if modified {
      var c: Bracket;
      error, c, next := UpdateTrialInterval(
        Shift(b.x, dgtest), Shift(b.y, dgtest), Shift(t, dgtest), range.0, range.1, b.brackt);
      b' := Bracket(Unshift(c.x, dgtest), Unshift(c.y, dgtest), c.brackt);
      SeenAgain(c, dgtest);
    } else {
      error, b', next := UpdateTrialInterval(b.x, b.y, t, range.0, range.1, b.brackt);
      SeenPlainly(b', b.x, t);
    }
  }

  lemma JudgeMeaning(j: Judged, finit: real, dginit: real, stpmin: real, stpmax: real, p: Param)
    ensures Judge(j, finit, dginit, stpmin, stpmax, p) == Continue
            ==> !(j.brackt && j.failed) && j.count < p.maxLineSearch
    ensures Judge(j, finit, dginit, stpmin, stpmax, p) == Found ==> j.count < p.maxLineSearch
    ensures var v := Judge(j, finit, dginit, stpmin, stpmax, p);
            v.Failed? ==> SearchFailure(v.status) && v.status != Canceled
  {
  }

  /** The tests of one evaluation decide the trial. */
  lemma JudgeDecides(ev: Objective, xp: Vec, s: Vec, t: Trial, count: int, l: Limits, p: Param, j: Judged)
    requires |xp| == |s| && Evaluates(ev, |xp|)
    requires j.brackt == t.b.brackt && j.failed == t.updateFailed && j.stp == t.stp && j.count == count
    requires j.brackt ==> j.stmin == Min(t.b.x.t, t.b.y.t) && j.stmax == Max(t.b.x.t, t.b.y.t)
    requires j.f == Phi(ev, xp, s, t.stp) && j.dg == Slope(ev, xp, s, t.stp)
    ensures Decided(Judge(j, Phi(ev, xp, s, 0.0), Slope(ev, xp, s, 0.0), l.lo, l.hi, p), ev, xp, s, t, count, l, p)
  {
    hide Phi, Slope, Mul;
  }

  lemma ClipPlaces(b: Bracket, stp: real, count: int, failed: bool, l: Limits, p: Param)
    requires l.lo <= l.hi
    ensures var stp' := ClipStep(b, stp, TrialRange(b, stp), l.lo, l.hi, count, failed, p);
            Placed(Trial(b, stp', failed), count + 1, l, p)
  {
    hide Mul;
  }

  lemma ClipNonNegative(b: Bracket, stp: real, stpmin: real, stpmax: real, count: int, failed: bool, p: Param)
    requires 0.0 <= b.x.t && 0.0 <= b.y.t && 0.0 <= stp && 0.0 <= stpmin && 0.0 <= stpmax
    ensures 0.0 <= TrialRange(b, stp).0
    ensures 0.0 <= ClipStep(b, stp, TrialRange(b, stp), stpmin, stpmax, count, failed, p)
  {
    hide Mul;
  }

  lemma Extend(ev: Objective, xp: Vec, s: Vec, trials: seq<Trial>, t: Trial)
    requires |xp| == |s| && Evaluates(ev, |xp|) && GoodSearch(ev, xp, s, trials) && GoodTrial(ev, xp, s, t)
    requires |trials| > 0 ==> Follows(trials[|trials| - 1], t)
    requires |trials| == 0 ==> t.b.x.t == 0.0
    ensures GoodSearch(ev, xp, s, trials + [t])
  {
    hide GoodTrial, Follows;
  }

  /** The first trial is the wanted step, clipped, from no bracket. */
  predicate StartsAt(trials: seq<Trial>, wanted: real, l: Limits) {
    |trials| > 0 ==>
      && !trials[0].b.brackt && trials[0].stp == FirstTrial(wanted, l.lo, l.hi)
      && (l.lo <= wanted <= l.hi ==> trials[0].stp == wanted)
  }

  /** What the search keeps between evaluations: the trials so far decided nothing, and the next one is good. */
  ghost predicate Going(ev: Objective, xp: Vec, s: Vec, trials: seq<Trial>, b: Bracket, stp: real, failed: bool,
                        stp0: real, l: Limits, p: Param)
    requires |xp| == |s| && Evaluates(ev, |xp|)
  {
    && GoodSearch(ev, xp, s, trials) && Undecided(ev, xp, s, trials, l, p) && AllPlaced(trials, l, p)
    && StartsAt(trials, stp0, l)
    && GoodTrial(ev, xp, s, Trial(b, stp, failed))
    && (|trials| == 0 ==> b.x.t == 0.0 && !b.brackt && stp == stp0)
    && (|trials| > 0 ==> Follows(trials[|trials| - 1], Trial(b, stp, failed)))
  }

  lemma NothingTried(verdict: Verdict, ev: Objective, xp: Vec, s: Vec, stp0: real, l: Limits, p: Param)
    requires |xp| == |s| && Evaluates(ev, |xp|)
    ensures GoodSearch(ev, xp, s, []) && Ends(verdict, ev, xp, s, [], l, p) && Undecided(ev, xp, s, [], l, p)
    ensures AllPlaced([], l, p) && StartsAt([], stp0, l)
  {
  }

  lemma GoingAtFirst(ev: Objective, xp: Vec, s: Vec, b: Bracket, stp: real, l: Limits, p: Param)
    requires |xp| == |s| && Evaluates(ev, |xp|) && 0.0 <= stp
    requires b == Bracket(End(0.0, Phi(ev, xp, s, 0.0), Slope(ev, xp, s, 0.0)),
                          End(0.0, Phi(ev, xp, s, 0.0), Slope(ev, xp, s, 0.0)), false)
    ensures Going(ev, xp, s, [], b, stp, false, stp, l, p)
  {
    NothingTried(Continue, ev, xp, s, stp, l, p);
    hide Phi, Slope;
  }

  lemma GoingMeans(ev: Objective, xp: Vec, s: Vec, trials: seq<Trial>, b: Bracket, stp: real, failed: bool,
                   stp0: real, l: Limits, p: Param)
    requires |xp| == |s| && Evaluates(ev, |xp|) && Going(ev, xp, s, trials, b, stp, failed, stp0, l, p)
    ensures GoodSearch(ev, xp, s, trials) && AllPlaced(trials, l, p) && StartsAt(trials, stp0, l)
    ensures GoodTrial(ev, xp, s, Trial(b, stp, failed)) && Ends(Failed(Canceled), ev, xp, s, trials, l, p)
    ensures 0.0 <= b.x.t && 0.0 <= b.y.t
  {
    hide GoodSearch, AllPlaced, StartsAt, OnCurve, Decided, Follows;
  }

  lemma OneMoreTrial(verdict: Verdict, ev: Objective, xp: Vec, s: Vec, trials: seq<Trial>, b: Bracket, wanted: real,
                     stp: real, failed: bool, stp0: real, l: Limits, p: Param)
    requires |xp| == |s| && Evaluates(ev, |xp|) && Going(ev, xp, s, trials, b, wanted, failed, stp0, l, p)
    requires GoodTrial(ev, xp, s, Trial(b, stp, failed)) && verdict != Failed(Canceled)
    requires Decided(verdict, ev, xp, s, Trial(b, stp, failed), |trials| + 1, l, p)
    requires !b.brackt ==> stp == FirstTrial(wanted, l.lo, l.hi)
    requires l.lo <= l.hi ==> Placed(Trial(b, stp, failed), |trials| + 1, l, p)
    ensures var trials' := trials + [Trial(b, stp, failed)];
            && GoodSearch(ev, xp, s, trials') && Ends(verdict, ev, xp, s, trials', l, p) && AllPlaced(trials', l, p)
            && StartsAt(trials', stp0, l)
            && (verdict == Continue ==> Undecided(ev, xp, s, trials', l, p))
  {
    var t := Trial(b, stp, failed);
    assert (trials + [t])[..|trials|] == trials;
    WithinLimits(stp0, l.lo, l.hi);
    Extend(ev, xp, s, trials, t);
    hide Decided, Placed, GoodSearch, GoodTrial, FirstTrial;
  }

  lemma GoesOn(ev: Objective, xp: Vec, s: Vec, tried: seq<Trial>, b: Bracket, t: End, failed: bool,
               b': Bracket, next: real, failed': bool, stp0: real, l: Limits, p: Param)
    requires |xp| == |s| && Evaluates(ev, |xp|)
    requires var trials := tried + [Trial(b, t.t, failed)];
             && GoodSearch(ev, xp, s, trials) && Undecided(ev, xp, s, trials, l, p) && AllPlaced(trials, l, p)
             && StartsAt(trials, stp0, l)
    requires GoodTrial(ev, xp, s, Trial(b, t.t, failed)) && OnCurve(ev, xp, s, t) && 0.0 <= next
    requires !(b.brackt && failed)
    requires failed' ==> b.brackt && b' == b
    requires !failed' ==> b' in {Bracket(b.x, t, true), Bracket(t, b.x, true), Bracket(t, b.y, b.brackt)}
    requires !failed' && b.brackt ==> StrictlyInside(b', b)
    requires b'.x.f <= b.x.f
    ensures Going(ev, xp, s, tried + [Trial(b, t.t, failed)], b', next, failed', stp0, l, p)
  {
    assert !failed;
    AfterUpdate(ev, xp, s, b, t, failed, b', next, failed');
    hide OnCurve, StrictlyInside, GoodSearch, Undecided, AllPlaced, StartsAt, GoodTrial, Follows;
  }

  /** The update after an undecided evaluation keeps the next trial good. */
  lemma AfterUpdate(ev: Objective, xp: Vec, s: Vec, b: Bracket, t: End, failed: bool,
                    b': Bracket, next: real, failed': bool)
    requires |xp| == |s| && Evaluates(ev, |xp|)
    requires GoodTrial(ev, xp, s, Trial(b, t.t, failed)) && OnCurve(ev, xp, s, t) && !failed && 0.0 <= next
    requires failed' ==> b.brackt && b' == b
    requires !failed' ==> b' in {Bracket(b.x, t, true), Bracket(t, b.x, true), Bracket(t, b.y, b.brackt)}
    requires !failed' && b.brackt ==> StrictlyInside(b', b)
    requires b'.x.f <= b.x.f
    ensures GoodTrial(ev, xp, s, Trial(b', next, failed'))
    ensures Follows(Trial(b, t.t, failed), Trial(b', next, failed'))
  {
    hide OnCurve, StrictlyInside;
  }

  lemma SlopeAtZero(ev: Objective, xp: Vec, s: Vec)
    requires |xp| == |s| && Evaluates(ev, |xp|)
    ensures Slope(ev, xp, s, 0.0) == Dot(ev.grad(xp), s) && Phi(ev, xp, s, 0.0) == ev.value(xp)
  {
    AxpyZero(xp, s);
  }

  lemma BracketRange(b: Bracket, stp: real)
    ensures b.brackt ==> TrialRange(b, stp) == (Min(b.x.t, b.y.t), Max(b.x.t, b.y.t))
  {
  }

  /** `watched`: there is a progress callback, which may cancel before any evaluation. */
  method Search(ev: Objective, x: array<real>, f0: real, g: array<real>, s: Vec, stp0: real, xp: Vec,
                stpmin: real, stpmax: real, p: Param, watched: bool)
    returns (verdict: Verdict, f: real, stp: real, ghost trials: seq<Trial>)
    requires Evaluates(ev, |xp|) && x.Length == g.Length == |xp| == |s| && x != g
    requires x[..] == xp && f0 == ev.value(xp) && g[..] == ev.grad(xp)
    requires 0.0 <= stpmin && (0.0 < stp0 ==> 0.0 <= stpmax)
    modifies x, g
    ensures verdict != Continue && (verdict.Failed? ==> SearchFailure(verdict.status))
    ensures f == ev.value(x[..]) && g[..] == ev.grad(x[..])
    ensures GoodSearch(ev, xp, s, trials)
    ensures |trials| <= 1 || |trials| <= p.maxLineSearch
    ensures |trials| > 0 ==> x[..] == Axpy(xp, trials[|trials| - 1].stp, s)
    ensures |trials| == 0 ==> x[..] == xp
    ensures verdict == Found ==> x[..] == Axpy(xp, stp, s) && f == Phi(ev, xp, s, stp) && 0.0 <= stp
    ensures verdict == Found ==> StrongWolfe(ev, xp, s, p, stp) && |trials| > 0 && stp == trials[|trials| - 1].stp
    ensures Ends(verdict, ev, xp, s, trials, Limits(stpmin, stpmax), p)
    ensures AllPlaced(trials, Limits(stpmin, stpmax), p)
    ensures verdict == Found ==> |trials| < p.maxLineSearch
    ensures StartsAt(trials, stp0, Limits(stpmin, stpmax))
    ensures !watched ==> verdict != Failed(Canceled)
    ensures |trials| == 0 && 0.0 < stp0 && Dot(ev.grad(xp), s) <= 0.0 ==> verdict == Failed(Canceled)
  {
    SlopeAtZero(ev, xp, s);
    hide Mul, Dot, Axpy, TrialRange, GoodSearch, StrictlyInside, Decided, Placed, GoodTrial, Going, StartsAt;
    hide Ends, AllPlaced, StrongWolfe, SearchFailure, OnCurve, FirstTrial, GoodSearch;
    ghost var l := Limits(stpmin, stpmax);
    trials := [];
    f, stp := f0, stp0;
    NothingTried(Failed(InvalidParameters), ev, xp, s, stp0, l, p);
    NothingTried(Failed(IncreaseGradient), ev, xp, s, stp0, l, p);
    if stp <= 0.0 {
      return Failed(InvalidParameters), f, stp, trials;
    }
    var dginit := VecDot(g[..], s);
    AxpyZero(xp, s);
    if 0.0 < dginit {
      return Failed(IncreaseGradient), f, stp, trials;
    }
    var finit := f;
    var stage := Stage(true, stpmax - stpmin, 2.0 * (stpmax - stpmin));
    var b := Bracket(End(0.0, finit, dginit), End(0.0, finit, dginit), false);
    var failed := false;
    var count := 0;
    verdict := Continue;
    GoingAtFirst(ev, xp, s, b, stp, l, p);
    while true
      invariant verdict == Continue && count == |trials|
      invariant x[..] == if count == 0 then xp else Axpy(xp, trials[count - 1].stp, s)
      invariant f == ev.value(x[..]) && g[..] == ev.grad(x[..])
      invariant Going(ev, xp, s, trials, b, stp, failed, stp0, l, p)
      invariant count == 0 || count < p.maxLineSearch
      decreases p.maxLineSearch - count
    {
      var cancel: bool := *;
      GoingMeans(ev, xp, s, trials, b, stp, failed, stp0, l, p);
      if watched && cancel {
        return Failed(Canceled), f, stp, trials;
      }
      var range := TrialRange(b, stp);
      var dg: real;
      ghost var wanted := stp;
      verdict, stp, f, dg := Try(ev, x, g, s, xp, b, stp, count, failed, stpmin, stpmax, p, finit, dginit);
      OneMoreTrial(verdict, ev, xp, s, trials, b, wanted, stp, failed, stp0, l, p);
      ghost var tried := trials;
      trials := trials + [Trial(b, stp, failed)];
      count := count + 1;
      if verdict != Continue {
        return;
      }
      ghost var t := End(stp, f, dg);
      ghost var b0, failed0 := b, failed;
      b, stp, failed, stage := NextInterval(b, End(stp, f, dg), range, finit, dginit, stage, p);
      GoesOn(ev, xp, s, tried, b0, t, failed0, b, stp, failed, stp0, l, p);
    }
  }

  /** One evaluation and its tests. */
  method Try(ev: Objective, x: array<real>, g: array<real>, s: Vec, xp: Vec, b: Bracket, wanted: real, count: int,
             failed: bool, stpmin: real, stpmax: real, p: Param, finit: real, dginit: real)
    returns (verdict: Verdict, stp: real, f: real, dg: real)
    requires Evaluates(ev, |xp|) && x.Length == g.Length == |xp| == |s| && x != g
    requires GoodTrial(ev, xp, s, Trial(b, wanted, failed)) && 0.0 <= stpmin && 0.0 <= stpmax
    requires finit == Phi(ev, xp, s, 0.0) && dginit == Slope(ev, xp, s, 0.0)
    modifies x, g
    ensures x[..] == Axpy(xp, stp, s) && g[..] == ev.grad(x[..]) && f == ev.value(x[..])
    ensures GoodTrial(ev, xp, s, Trial(b, stp, failed)) && OnCurve(ev, xp, s, End(stp, f, dg))
    ensures 0.0 <= TrialRange(b, wanted).0
    ensures !b.brackt ==> stp == FirstTrial(wanted, stpmin, stpmax)
    ensures stpmin <= stpmax ==> Placed(Trial(b, stp, failed), count + 1, Limits(stpmin, stpmax), p)
    ensures Decided(verdict, ev, xp, s, Trial(b, stp, failed), count + 1, Limits(stpmin, stpmax), p)
    ensures verdict == Continue ==> !(b.brackt && failed) && count + 1 < p.maxLineSearch
    ensures verdict == Found ==> count + 1 < p.maxLineSearch && StrongWolfe(ev, xp, s, p, stp)
    ensures verdict.Failed? ==> SearchFailure(verdict.status) && verdict.status != Canceled
  {
    hide Mul, Dot, Axpy, StrongWolfe, Judge, ClipStep, FirstTrial, TrialRange, Min, Decided, Placed, OnCurve;
    ghost var l := Limits(stpmin, stpmax);
    var range := TrialRange(b, wanted);
    ClipNonNegative(b, wanted, stpmin, stpmax, count, failed, p);
    if !b.brackt {
      ClipUnbracketed(b, wanted, range, stpmin, stpmax, count, failed, p);
    }
    if stpmin <= stpmax {
      ClipPlaces(b, wanted, count, failed, l, p);
    }
    stp := ClipStep(b, wanted, range, stpmin, stpmax, count, failed, p);
    f, dg := EvaluateAt(ev, x, g, xp, s, stp);
    EvaluatedOnCurve(ev, xp, s, stp, f, dg);
    var judged := Judged(b.brackt, range.0, range.1, failed, stp, f, dg, count + 1);
    verdict := Judge(judged, finit, dginit, stpmin, stpmax, p);
    JudgeMeaning(judged, finit, dginit, stpmin, stpmax, p);
    BracketRange(b, wanted);
    JudgeDecides(ev, xp, s, Trial(b, stp, failed), count + 1, l, p, judged);
    FoundIsGood(verdict, ev, xp, s, Trial(b, stp, failed), count + 1, l, p);
  }

  lemma FoundIsGood(verdict: Verdict, ev: Objective, xp: Vec, s: Vec, t: Trial, count: int, l: Limits, p: Param)
    requires |xp| == |s| && Evaluates(ev, |xp|) && Decided(verdict, ev, xp, s, t, count, l, p)
    ensures verdict == Found ==> StrongWolfe(ev, xp, s, p, t.stp)
  {
  }

  lemma EvaluatedOnCurve(ev: Objective, xp: Vec, s: Vec, a: real, f: real, dg: real)
    requires |xp| == |s| && Evaluates(ev, |xp|) && f == Phi(ev, xp, s, a) && dg == Slope(ev, xp, s, a)
    ensures OnCurve(ev, xp, s, End(a, f, dg))
  {
  }

  /** Whether the first stage lasts, and the widths of the last two intervals. */
  datatype Stage = Stage(first: bool, width: real, before: real)

  /** The interval and the trial value after an undecided evaluation. */
  method NextInterval(b: Bracket, t: End, range: (real, real), finit: real, dginit: real, stage: Stage, p: Param)
    returns (b': Bracket, next: real, failed: bool, stage': Stage)
    requires 0.0 <= range.0 && 0.0 <= b.x.t && 0.0 <= b.y.t && 0.0 <= t.t
    ensures failed ==> b.brackt && b' == b
    ensures !failed ==> b' in {Bracket(b.x, t, true), Bracket(t, b.x, true), Bracket(t, b.y, b.brackt)}
    ensures !failed && b.brackt ==> StrictlyInside(b', b)
    ensures b'.x.f <= b.x.f && 0.0 <= next
  {
    hide Mul, StrictlyInside, Sound, Downhill, Shift;
    var dgtest := Mul(p.fDecCoeff, dginit);
    var ftest1 := finit + Mul(t.t, dgtest);
    var stage1 := stage.first && !(t.f <= ftest1 && Mul(Min(p.fDecCoeff, p.sCurvCoeff), dginit) <= t.d);
    stage' := stage.(first := stage1);
    var modified := stage1 && ftest1 < t.f && t.f <= b.x.f;
    var error;
    error, b', next := UpdateInterval(b, t, range, dgtest, modified);
    failed := error.Some?;
    if b'.brackt {
      if 0.66 * stage.before <= Abs(b'.y.t - b'.x.t) {
        next := b'.x.t + 0.5 * (b'.y.t - b'.x.t);
      }
      stage' := Stage(stage1, Abs(b'.y.t - b'.x.t), stage.width);
    }
  }
}
