/**
 The solver runs of bspline_optimizer.cpp: the interior control points are the variables of L-BFGS and
 the z row of the gradient is cleared, so only x and y of interior control points can move.
 Control points are a 3 x N matrix in its column-major buffer: entry (j, i) is at 3 * i + j.
 */
module TrajectoryOptimizer {
  import opened Options
  import opened Vectors
  import opened LineSearch
  import Lbfgs

  /** The buffer with its interior columns overwritten by x. */
  function Embed(points: Vec, order: nat, x: Vec): (q: Vec)
    requires 6 * order <= |points| && |x| == |points| - 6 * order
    ensures |q| == |points|
    ensures forall i | 0 <= i < |q| :: q[i] == if 3 * order <= i < 3 * order + |x| then x[i - 3 * order] else points[i]
  {
    points[..3 * order] + x + points[3 * order + |x|..]
  }

  function Interior(points: Vec, order: nat): (x: Vec)
    requires 6 * order <= |points|
    ensures |x| == |points| - 6 * order
  {
    points[3 * order..|points| - 3 * order]
  }

  /** grad_3D.row(2).setZero() */
  function ClearZ(grad: Vec): (g: Vec)
    ensures |g| == |grad|
  {
    seq(|grad|, i requires 0 <= i < |grad| => if i % 3 == 2 then 0.0 else grad[i])
  }

  /** The combined cost of all control points and its full gradient. */
  ghost predicate GradientShaped(costs: Objective, n: nat) {
    forall q: Vec | |q| == n :: |costs.grad(q)| == n
  }

  function CombinedValue(costs: Objective, points: Vec, order: nat, x: Vec): real {
    if 6 * order <= |points| && |x| == |points| - 6 * order then costs.value(Embed(points, order, x)) else 0.0
  }

  function CombinedGrad(costs: Objective, points: Vec, order: nat, x: Vec): Vec {
    if 6 * order <= |points| && |x| == |points| - 6 * order then
      var g := ClearZ(costs.grad(Embed(points, order, x)));
      if |g| == |points| then Interior(g, order) else []
    else []
  }

  /** What the solver sees: the combined cost as a function of the interior columns. */
  function Combined(costs: Objective, points: Vec, order: nat): Objective {
    Objective(x => CombinedValue(costs, points, order, x), x => CombinedGrad(costs, points, order, x))
  }

  /** The coordinates of x that are z entries. */
  ghost function ZEntries(n: nat): set<nat> {
    set i: nat | i < n && i % 3 == 2
  }

  /** Only x and y of interior columns may differ. */
  ghost predicate OnlyInteriorXY(p: Vec, q: Vec, order: nat) {
    && |p| == |q|
    && forall i | 0 <= i < |p| :: i < 3 * order || i >= |p| - 3 * order || i % 3 == 2 ==> q[i] == p[i]
  }

  lemma CombinedGradZ(costs: Objective, points: Vec, order: nat, x: Vec)
    requires 6 * order <= |points| && GradientShaped(costs, |points|) && |x| == |points| - 6 * order
    ensures |CombinedGrad(costs, points, order, x)| == |x|
    ensures Lbfgs.ZeroOn(CombinedGrad(costs, points, order, x), ZEntries(|x|))
  {
    var g := ClearZ(costs.grad(Embed(points, order, x)));
    forall i | i in ZEntries(|x|)
      ensures Interior(g, order)[i] == 0.0
    {
      assert Interior(g, order)[i] == g[3 * order + i];
      assert (3 * order + i) % 3 == 2;
    }
  }

  lemma CombinedFreezesZ(costs: Objective, points: Vec, order: nat)
    requires 6 * order <= |points| && GradientShaped(costs, |points|)
    ensures Evaluates(Combined(costs, points, order), |points| - 6 * order)
    ensures Lbfgs.Freezes(Combined(costs, points, order), |points| - 6 * order, ZEntries(|points| - 6 * order))
  {
    var n := |points| - 6 * order;
    var ev := Combined(costs, points, order);
    forall x: Vec | |x| == n
      ensures |ev.grad(x)| == n && Lbfgs.ZeroOn(ev.grad(x), ZEntries(n))
    {
      CombinedGradZ(costs, points, order, x);
    }
  }

  /** A vector that keeps the z entries of the old interior only moves x and y of interior columns. */
  lemma EmbedKeepsRest(points: Vec, order: nat, x: Vec)
    requires 6 * order <= |points| && |x| == |points| - 6 * order
    requires Lbfgs.AgreesOn(x, Interior(points, order), ZEntries(|x|))
    ensures OnlyInteriorXY(points, Embed(points, order, x), order)
  {
    forall i | 0 <= i < |points| && (i < 3 * order || i >= |points| - 3 * order || i % 3 == 2)
      ensures Embed(points, order, x)[i] == points[i]
    {
      if 3 * order <= i < 3 * order + |x| {
        assert i - 3 * order in ZEntries(|x|);
      }
    }
  }

  /** Evaluations overwrite each other: only the last one shows in the buffer. */
  lemma EmbedTwice(points: Vec, order: nat, x: Vec, y: Vec)
    requires 6 * order <= |points| && |x| == |y| == |points| - 6 * order
    ensures Embed(Embed(points, order, x), order, y) == Embed(points, order, y)
  {
  }

  ghost predicate AllInner(points: Vec, order: nat, xs: seq<Vec>)
    requires 6 * order <= |points|
  {
    forall i | 0 <= i < |xs| :: |xs[i]| == |points| - 6 * order
  }

  /** The buffer after evaluations at xs, one after another. */
  ghost function Evaluated(points: Vec, order: nat, xs: seq<Vec>): (q: Vec)
    requires 6 * order <= |points| && AllInner(points, order, xs)
    ensures |q| == |points|
    decreases |xs|
  {
    if xs == [] then points
    else Embed(Evaluated(points, order, xs[..|xs| - 1]), order, xs[|xs| - 1])
  }

  /** The solver sees the same costs through both buffers. */
  ghost predicate SameSeen(p: Vec, q: Vec, order: nat) {
    && |p| == |q| >= 6 * order
    && forall y: Vec | |y| == |p| - 6 * order :: Embed(p, order, y) == Embed(q, order, y)
  }

  lemma SameObjective(costs: Objective, p: Vec, q: Vec, order: nat)
    requires SameSeen(p, q, order)
    ensures forall y: Vec | |y| == |p| - 6 * order ::
              && Combined(costs, p, order).value(y) == Combined(costs, q, order).value(y)
              && Combined(costs, p, order).grad(y) == Combined(costs, q, order).grad(y)
  {
  }

  /** However many evaluations went before, the buffer is at the last one and the next sees the same costs. */
  lemma {:induction false} AfterEvaluations(points: Vec, order: nat, xs: seq<Vec>)
    requires 6 * order <= |points| && AllInner(points, order, xs)
    ensures Evaluated(points, order, xs) == if xs == [] then points else Embed(points, order, xs[|xs| - 1])
    ensures SameSeen(points, Evaluated(points, order, xs), order)
    decreases |xs|
  {
    if xs != [] {
      var n := |xs| - 1;
      AfterEvaluations(points, order, xs[..n]);
      if n > 0 {
        EmbedTwice(points, order, xs[n - 1], xs[n]);
      }
      forall y: Vec | |y| == |points| - 6 * order
        ensures Embed(points, order, y) == Embed(Evaluated(points, order, xs), order, y)
      {
        EmbedTwice(points, order, xs[n], y);
      }
    }
  }

  /** Evaluations that agree with the old interior in z only move x and y of interior columns, at every moment. */
  lemma EvaluationsKeepRest(points: Vec, order: nat, xs: seq<Vec>, i: nat)
    requires 6 * order <= |points| && i <= |xs|
    requires Lbfgs.AllAgree(xs, Interior(points, order), ZEntries(|points| - 6 * order))
    ensures AllInner(points, order, xs[..i])
    ensures OnlyInteriorXY(points, Evaluated(points, order, xs[..i]), order)
    ensures SameSeen(points, Evaluated(points, order, xs[..i]), order)
  {
    AfterEvaluations(points, order, xs[..i]);
    if i > 0 {
      EmbedKeepsRest(points, order, xs[i - 1]);
    }
  }

  /** While a solver run evaluates at xs, only x and y of interior columns move and its objective stays the same. */
  ghost predicate RunKeepsRest(points: Vec, order: nat, xs: seq<Vec>) {
    && 6 * order <= |points| && AllInner(points, order, xs)
    && forall i | 0 <= i <= |xs| ::
         && OnlyInteriorXY(points, Evaluated(points, order, xs[..i]), order)
         && SameSeen(points, Evaluated(points, order, xs[..i]), order)
  }

  /** What Lbfgs.Optimize returns. */
  datatype Ending = Ending(ev: Objective, p: Param, status: Option<Status>, x: Vec, fx: real, accepted: seq<Vec>,
                           evaluated: seq<Vec>)

  ghost predicate Ended(r: Ending, x0: Vec, last: Vec) {
    if Lbfgs.CheckParam(|x0|, r.p).Some? then last == x0 && r.evaluated == []
    else
      && Lbfgs.Outcome(r.ev, r.p, ZEntries(|x0|), x0, r.x, r.status, r.fx, r.accepted, r.evaluated)
      && last == r.evaluated[|r.evaluated| - 1]
  }

  lemma AgreeingRunKeepsRest(points: Vec, order: nat, xs: seq<Vec>)
    requires 6 * order <= |points|
    requires Lbfgs.AllAgree(xs, Interior(points, order), ZEntries(|points| - 6 * order))
    ensures RunKeepsRest(points, order, xs)
  {
    hide OnlyInteriorXY, SameSeen, Evaluated, Lbfgs.AgreesOn, ZEntries;
    forall i: nat | i <= |xs|
      ensures AllInner(points, order, xs[..i])
      ensures OnlyInteriorXY(points, Evaluated(points, order, xs[..i]), order)
      ensures SameSeen(points, Evaluated(points, order, xs[..i]), order)
    {
      EvaluationsKeepRest(points, order, xs, i);
    }
  }

  lemma EndedAgrees(r: Ending, x0: Vec, last: Vec)
    requires Ended(r, x0, last)
    ensures Lbfgs.AllAgree(r.evaluated, x0, ZEntries(|x0|))
    ensures if r.evaluated == [] then last == x0 else last == r.evaluated[|r.evaluated| - 1] && |last| == |x0|
  {
  }

  /** However the solver ends, its evaluations move x and y of interior columns only. */
  lemma RunFollows(r: Ending, points: Vec, order: nat, last: Vec)
    requires 6 * order <= |points| && Ended(r, Interior(points, order), last)
    ensures |last| == |points| - 6 * order && RunKeepsRest(points, order, r.evaluated)
    ensures Embed(points, order, last) == Evaluated(points, order, r.evaluated)
    ensures OnlyInteriorXY(points, Embed(points, order, last), order)
  {
    hide Ended, OnlyInteriorXY, SameSeen, Embed, Evaluated, Lbfgs.AllAgree;
    var xs := r.evaluated;
    EndedAgrees(r, Interior(points, order), last);
    AgreeingRunKeepsRest(points, order, xs);
    assert xs[..|xs|] == xs;
    AfterEvaluations(points, order, xs);
    EmbedInterior(points, order);
  }

  lemma EmbedInterior(points: Vec, order: nat)
    requires 6 * order <= |points|
    ensures Embed(points, order, Interior(points, order)) == points
  {
  }

  class BsplineOptimizer {
    var points: array<real>
    const order: nat

    constructor (points: array<real>, order: nat)
      ensures this.points == points && this.order == order
    {
      this.points := points;
      this.order := order;
    }

    /** combineCostRebound / combineCostRefine: one evaluation, with its side effect on the control points. */
    method CombineCost(costs: Objective, x: Vec, grad: array<real>) returns (f: real)
      requires 6 * order <= points.Length && |x| == grad.Length == points.Length - 6 * order
      requires GradientShaped(costs, points.Length) && grad != points
      modifies points, grad
      ensures points[..] == Embed(old(points[..]), order, x)
      ensures f == Combined(costs, old(points[..]), order).value(x)
      ensures grad[..] == Combined(costs, old(points[..]), order).grad(x)
      ensures SameSeen(old(points[..]), points[..], order)
      ensures forall y: Vec | |y| == |x| ::
                && Combined(costs, points[..], order).value(y) == Combined(costs, old(points[..]), order).value(y)
                && Combined(costs, points[..], order).grad(y) == Combined(costs, old(points[..]), order).grad(y)
    {
      AfterEvaluations(points[..], order, [x]);
      SameObjective(costs, points[..], Embed(points[..], order, x), order);
      Store(x);
      var q := points[..];
      f := costs.value(q);
      var grad3D := costs.grad(q);
      var cleared := ClearZ(grad3D);
      VecCpy(grad, Interior(cleared, order));
    }

    /** memcpy of x over the interior columns. */
    method Store(x: Vec)
      requires 6 * order <= points.Length && |x| == points.Length - 6 * order
      modifies points
      ensures points[..] == Embed(old(points[..]), order, x)
    {
      for i := 0 to |x|
        invariant forall k | 0 <= k < points.Length ::
          points[k] == if 3 * order <= k < 3 * order + i then x[k - 3 * order] else old(points[k])
      {
        points[3 * order + i] := x[i];
      }
    }

    /**
     One solver run. `evaluated` are the points at which the solver calls CombineCost: the control points follow them
     one by one and are left at the last. Each call sees the costs that the first one saw, so the solver's objective
     is one function.
     */
    method Solve(costs: Objective, invNorm: real -> real, p: Param, watched: bool, budget: nat)
      returns (status: Option<Status>, ghost evaluated: seq<Vec>)
      requires 6 * order <= points.Length && GradientShaped(costs, points.Length)
      requires forall v: real | 0.0 < v :: 0.0 < invNorm(v)
      modifies points
      ensures RunKeepsRest(old(points[..]), order, evaluated)
      ensures points[..] == Evaluated(old(points[..]), order, evaluated)
      ensures OnlyInteriorXY(old(points[..]), points[..], order)
    {
      ghost var before := points[..];
      var n := points.Length - 6 * order;
      var ev := Combined(costs, points[..], order);
      CombinedFreezesZ(costs, points[..], order);
      var q := new real[n];
      VecCpy(q, Interior(points[..], order));
      var fx, last;
      ghost var accepted, lines;
      ghost var q0 := q[..];
      hide Lbfgs.Outcome, Lbfgs.FirstSearch, Lbfgs.CheckParam, Lbfgs.Freezes, Combined, OnlyInteriorXY, RunKeepsRest,
           Evaluated;
      status, fx, last, accepted, evaluated, lines :=
        Lbfgs.Optimize(ev, q, None, invNorm, p, watched, budget, ZEntries(n));
      RunFollows(Ending(ev, p, status, q[..], fx, accepted, evaluated), before, order, last);
      Store(last);
    }

    /** rebound_optimize: solver runs one after another, each with whatever costs the restart left behind. */
    method Rebound(rounds: seq<Objective>, invNorm: real -> real, p: Param, budget: nat)
      requires 6 * order <= points.Length
      requires forall i | 0 <= i < |rounds| :: GradientShaped(rounds[i], points.Length)
      requires forall v: real | 0.0 < v :: 0.0 < invNorm(v)
      modifies points
      ensures OnlyInteriorXY(old(points[..]), points[..], order)
    {
      for i := 0 to |rounds|
        invariant OnlyInteriorXY(old(points[..]), points[..], order)
      {
        var status, _ := Solve(rounds[i], invNorm, p, true, budget);
        var stop: bool := *;
        if stop {
          return;
        }
      }
    }
  }
}
