/**
 The two-loop recursion of lbfgs_optimize: the search direction built from the ring of
 correction pairs, and the positive definiteness that makes it a descent direction.
 */
module LbfgsDirection {
  import opened Modular
  import opened Vectors

  /** One entry of the limited memory: s = x - xp, y = g - gp, ys = y.s. */
  datatype Pair = Pair(s: Vec, y: Vec, ys: real)

  /** Vectors of the right length and a divisor that is not zero. */
  ghost predicate Shaped(p: Pair, n: nat) {
    |p.s| == |p.y| == n && p.ys != 0.0
  }

  ghost predicate AllShaped(pairs: seq<Pair>, n: nat) {
    forall i | 0 <= i < |pairs| :: Shaped(pairs[i], n)
  }

  /** A stored pair that passed the curvature test. */
  ghost predicate Curved(p: Pair, n: nat) {
    && |p.s| == |p.y| == n
    && p.ys == Dot(p.y, p.s)
    && p.ys > 0.0
  }

  ghost predicate AllCurved(pairs: seq<Pair>, n: nat) {
    forall i | 0 <= i < |pairs| :: Curved(pairs[i], n)
  }

  function Alpha(p: Pair, q: Vec): real
    requires |p.s| == |q| && p.ys != 0.0
  {
    Dot(p.s, q) / p.ys
  }

  function Beta(p: Pair, r: Vec): real
    requires |p.y| == |r| && p.ys != 0.0
  {
    Dot(p.y, r) / p.ys
  }

  /** First-loop step: q - alpha * y. */
  function Down(p: Pair, q: Vec): (q': Vec)
    requires |p.s| == |p.y| == |q| && p.ys != 0.0
    ensures |q'| == |q|
  {
    Axpy(q, -Alpha(p, q), p.y)
  }

  /** Second-loop step: r + (alpha - beta) * s. */
  function Up(p: Pair, q: Vec, r: Vec): (r': Vec)
    requires |p.s| == |p.y| == |q| == |r| && p.ys != 0.0
    ensures |r'| == |q|
  {
    Axpy(r, Alpha(p, q) - Beta(p, r), p.s)
  }

  /** The inverse-Hessian operator of the pairs, newest first, on top of gamma * I. */
  ghost function Apply(pairs: seq<Pair>, gamma: real, q: Vec): (r: Vec)
    requires AllShaped(pairs, |q|)
    ensures |r| == |q|
    decreases |pairs|
  {
    if |pairs| == 0 then Scale(gamma, q)
    else Up(pairs[0], q, Apply(pairs[1..], gamma, Down(pairs[0], q)))
  }

  lemma CrossIdentity(alpha: real, beta: real, gamma: real, ys: real, a: real, b: real)
    requires Mul(alpha, ys) == a && Mul(beta, ys) == b
    ensures Mul(gamma - beta, a) == Mul(-alpha, b) + Mul(Mul(gamma, alpha), ys)
  {
    assert (gamma - beta) * (alpha * ys) == (-alpha) * (beta * ys) + (gamma * alpha) * ys;
  }

  /** One pair between any two vectors u and v: what the others give on the reduced ones, and alpha * alpha * ys. */
  lemma CrossStep(p: Pair, u: Vec, v: Vec, r: Vec)
    requires Curved(p, |u|) && |v| == |r| == |u|
    ensures Dot(Up(p, v, r), u) == Dot(r, Down(p, u)) + Mul(Mul(Alpha(p, v), Alpha(p, u)), p.ys)
  {
    hide Mul, Dot, Axpy;
    var alpha, beta, gamma := Alpha(p, u), Beta(p, r), Alpha(p, v);
    DotAxpy(r, gamma - beta, p.s, u);
    DotComm(r, Down(p, u));
    DotAxpy(u, -alpha, p.y, r);
    DotComm(u, r);
    QuotientTimes(Dot(p.s, u), p.ys);
    QuotientTimes(Dot(p.y, r), p.ys);
    CrossIdentity(alpha, beta, gamma, p.ys, Dot(p.s, u), Dot(p.y, r));
  }

  lemma MulComm(a: real, b: real)
    ensures Mul(a, b) == Mul(b, a)
  {
  }

  /** The operator is symmetric. */
  lemma {:induction false} ApplySymmetric(pairs: seq<Pair>, gamma: real, u: Vec, v: Vec)
    requires |u| == |v| && AllShaped(pairs, |u|) && AllCurved(pairs, |u|)
    ensures Dot(Apply(pairs, gamma, v), u) == Dot(Apply(pairs, gamma, u), v)
    decreases |pairs|
  {
    hide Mul, Dot, Axpy, Down, Up, Alpha;
    if |pairs| == 0 {
      DotScale(gamma, v, u);
      DotScale(gamma, u, v);
      DotComm(u, v);
    } else {
      var p, rest := pairs[0], pairs[1..];
      var u', v' := Down(p, u), Down(p, v);
      CrossStep(p, u, v, Apply(rest, gamma, v'));
      CrossStep(p, v, u, Apply(rest, gamma, u'));
      ApplySymmetric(rest, gamma, u', v');
      MulComm(Alpha(p, u), Alpha(p, v));
    }
  }

  /** The newest pair satisfies the secant equation: the operator takes its y to its s. */
  lemma ApplySecant(pairs: seq<Pair>, gamma: real, q: Vec)
    requires |pairs| > 0 && AllShaped(pairs, |q|) && Curved(pairs[0], |q|)
    ensures Dot(Apply(pairs, gamma, q), pairs[0].y) == Dot(pairs[0].s, q)
  {
    hide Mul, Dot, Axpy, Apply;
    var p := pairs[0];
    var r := Apply(pairs[1..], gamma, Down(p, q));
    ApplyUnfold(pairs, gamma, q, 0);
    assert pairs[0..] == pairs;
    DotAxpy(r, Alpha(p, q) - Beta(p, r), p.s, p.y);
    DotComm(p.s, p.y);
    DotComm(r, p.y);
    QuotientTimes(Dot(p.s, q), p.ys);
    QuotientTimes(Dot(p.y, r), p.ys);
    MulSplit(Alpha(p, q), Beta(p, r), p.ys);
  }

  lemma MulSplit(a: real, b: real, c: real)
    ensures Mul(a - b, c) == Mul(a, c) - Mul(b, c)
  {
  }

  ghost predicate OrthogonalTo(pairs: seq<Pair>, w: Vec) {
    forall i | 0 <= i < |pairs| ::
      |pairs[i].s| == |pairs[i].y| == |w| && Dot(pairs[i].s, w) == 0.0 && Dot(pairs[i].y, w) == 0.0
  }

  lemma AddNothing(y: Vec, c: real, x: Vec, w: Vec)
    requires |x| == |y| == |w| && Dot(x, w) == 0.0
    ensures Dot(Axpy(y, c, x), w) == Dot(y, w)
  {
    DotAxpy(y, c, x, w);
    assert Mul(c, 0.0) == 0.0;
    hide Dot, Axpy;
  }

  /** Across directions that no pair has anything to do with, the operator only scales. */
  lemma {:induction false} ApplyScalesRest(pairs: seq<Pair>, gamma: real, q: Vec, w: Vec)
    requires |w| == |q| && AllShaped(pairs, |q|) && OrthogonalTo(pairs, w)
    ensures Dot(Apply(pairs, gamma, q), w) == Mul(gamma, Dot(q, w))
    decreases |pairs|
  {
    hide Mul, Dot, Axpy, Alpha, Beta;
    if |pairs| == 0 {
      DotScale(gamma, q, w);
    } else {
      var p, q' := pairs[0], Down(pairs[0], q);
      var r := Apply(pairs[1..], gamma, q');
      ApplyScalesRest(pairs[1..], gamma, q', w);
      AddNothing(q, -Alpha(p, q), p.y, w);
      AddNothing(r, Alpha(p, q) - Beta(p, r), p.s, w);
    }
  }

  /** One pair adds alpha^2 * ys to the quadratic form. */
  lemma FormStep(p: Pair, q: Vec, r: Vec)
    requires Curved(p, |q|) && |r| == |q|
    ensures Dot(Up(p, q, r), q) == Dot(r, Down(p, q)) + Mul(Mul(Alpha(p, q), Alpha(p, q)), p.ys)
  {
    CrossStep(p, q, q, r);
  }

  lemma DownByZero(p: Pair, q: Vec)
    requires |p.s| == |p.y| == |q| && p.ys != 0.0 && Alpha(p, q) == 0.0
    ensures Down(p, q) == q
  {
  }

  lemma WeightSign(alpha: real, ys: real)
    requires ys > 0.0
    ensures Mul(Mul(alpha, alpha), ys) >= 0.0
    ensures alpha != 0.0 ==> Mul(Mul(alpha, alpha), ys) > 0.0
  {
    SquareSign(alpha);
    if alpha != 0.0 {
      ProductPositive(Mul(alpha, alpha), ys);
    }
  }

  /** Curved pairs and a positive initial scaling give a positive definite operator. */
  lemma {:induction false} ApplyPositiveDefinite(pairs: seq<Pair>, gamma: real, q: Vec)
    requires AllShaped(pairs, |q|) && AllCurved(pairs, |q|) && gamma > 0.0
    ensures IsZero(q) ==> Dot(Apply(pairs, gamma, q), q) == 0.0
    ensures !IsZero(q) ==> Dot(Apply(pairs, gamma, q), q) > 0.0
    decreases |pairs|
  {
    hide Mul, Dot, Axpy, Down, Up, Alpha, IsZero;
    DotSelf(q);
    if |pairs| == 0 {
      DotScale(gamma, q, q);
      if !IsZero(q) { ProductPositive(gamma, Dot(q, q)); }
    } else {
      var p := pairs[0];
      var q' := Down(p, q);
      ApplyPositiveDefinite(pairs[1..], gamma, q');
      FormStep(p, q, Apply(pairs[1..], gamma, q'));
      WeightSign(Alpha(p, q), p.ys);
      if Alpha(p, q) == 0.0 {
        DownByZero(p, q);
      }
    }
    if IsZero(q) {
      DotComm(Apply(pairs, gamma, q), q);
      DotZero(q, Apply(pairs, gamma, q));
    }
  }

  ghost predicate ZeroAt(x: Vec, i: nat) {
    i < |x| ==> x[i] == 0.0
  }

  /** A coordinate in which every pair and the argument vanish stays zero. */
  lemma {:induction false} ApplyKeepsZero(pairs: seq<Pair>, gamma: real, q: Vec, i: nat)
    requires AllShaped(pairs, |q|) && ZeroAt(q, i)
    requires forall k | 0 <= k < |pairs| :: ZeroAt(pairs[k].s, i) && ZeroAt(pairs[k].y, i)
    ensures ZeroAt(Apply(pairs, gamma, q), i)
    decreases |pairs|
  {
    if |pairs| > 0 {
      ApplyKeepsZero(pairs[1..], gamma, Down(pairs[0], q), i);
    }
  }

  // ---------- the ring ----------

  /** The i-th slot behind end, going backwards around a ring of m slots. */
  function Behind(end: nat, i: nat, m: nat): (j: nat)
    requires end < m && i <= m
    ensures j < m
  {
    if i <= end then end - i else end + m - i
  }

  /** The newest `bound` entries of the ring, newest first. */
  ghost function Recent(ring: seq<Pair>, end: nat, bound: nat): (pairs: seq<Pair>)
    requires end < |ring| && bound <= |ring|
    ensures |pairs| == bound
    ensures forall i | 0 <= i < bound :: pairs[i] == ring[Behind(end, i + 1, |ring|)]
  {
    seq(bound, i requires 0 <= i < bound => ring[Behind(end, i + 1, |ring|)])
  }

  ghost predicate Holds(ring: seq<Pair>, end: nat, pairs: seq<Pair>)
    requires end < |ring|
  {
    |pairs| <= |ring| && forall i | 0 <= i < |pairs| :: pairs[i] == ring[Behind(end, i + 1, |ring|)]
  }

  /** q after the first k steps of the first loop. */
  ghost function DownTo(pairs: seq<Pair>, q: Vec, k: nat): (q': Vec)
    requires AllShaped(pairs, |q|) && k <= |pairs|
    ensures |q'| == |q|
  {
    if k == 0 then q else Down(pairs[k - 1], DownTo(pairs, q, k - 1))
  }

  /** Storing at end and advancing it makes the new pair the newest of the recent ones. */
  lemma RecentAfterStore(ring: seq<Pair>, end: nat, bound: nat, p: Pair)
    requires end < |ring| && bound < |ring|
    ensures Recent(ring[end := p], (end + 1) % |ring|, bound + 1) == [p] + Recent(ring, end, bound)
  {
    var m := |ring|;
    ModOnce(end + 1, m);
    var after := Recent(ring[end := p], (end + 1) % m, bound + 1);
    var expected := [p] + Recent(ring, end, bound);
    forall i | 0 <= i <= bound
      ensures after[i] == expected[i]
    {
      if i > 0 {
        assert Behind((end + 1) % m, i + 1, m) == Behind(end, i, m) != end;
      }
    }
  }

  /** The same with a full ring, where the oldest pair falls out. */
  lemma RecentAfterOverwrite(ring: seq<Pair>, end: nat, p: Pair)
    requires end < |ring|
    ensures Recent(ring[end := p], (end + 1) % |ring|, |ring|) == [p] + Recent(ring, end, |ring|)[..|ring| - 1]
  {
    var m := |ring|;
    ModOnce(end + 1, m);
    var after := Recent(ring[end := p], (end + 1) % m, m);
    var expected := [p] + Recent(ring, end, m)[..m - 1];
    forall i | 0 <= i < m
      ensures after[i] == expected[i]
    {
      if i > 0 {
        assert Behind((end + 1) % m, i + 1, m) == Behind(end, i, m) != end;
      }
    }
  }

  /** The alpha the first loop computes for pair k. */
  ghost function AlphaAt(pairs: seq<Pair>, q: Vec, k: nat): real
    requires AllShaped(pairs, |q|) && k < |pairs|
  {
    Alpha(pairs[k], DownTo(pairs, q, k))
  }

  ghost predicate AlphasStored(alphas: seq<real>, pairs: seq<Pair>, q: Vec, end: nat, count: nat)
    requires AllShaped(pairs, |q|) && end < |alphas| && count <= |pairs| <= |alphas|
  {
    forall k | 0 <= k < count :: alphas[Behind(end, k + 1, |alphas|)] == AlphaAt(pairs, q, k)
  }

  lemma AlphaStore(alphas: seq<real>, pairs: seq<Pair>, q: Vec, end: nat, i: nat)
    requires AllShaped(pairs, |q|) && end < |alphas| && i < |pairs| <= |alphas|
    requires AlphasStored(alphas, pairs, q, end, i)
    ensures AlphasStored(alphas[Behind(end, i + 1, |alphas|) := AlphaAt(pairs, q, i)], pairs, q, end, i + 1)
  {
    hide AlphaAt, AllShaped;
    var j := Behind(end, i + 1, |alphas|);
    var alphas' := alphas[j := AlphaAt(pairs, q, i)];
    forall k | 0 <= k < i + 1
      ensures alphas'[Behind(end, k + 1, |alphas|)] == AlphaAt(pairs, q, k)
    {
      if k < i {
        BehindDistinct(end, k + 1, i + 1, |alphas|);
        assert alphas[Behind(end, k + 1, |alphas|)] == AlphaAt(pairs, q, k);
      }
    }
  }

  lemma BehindDistinct(end: nat, a: nat, b: nat, m: nat)
    requires end < m && 0 < a < b <= m
    ensures Behind(end, a, m) != Behind(end, b, m)
  {
  }

  lemma ApplyUnfold(pairs: seq<Pair>, gamma: real, q: Vec, k: nat)
    requires AllShaped(pairs, |q|) && k < |pairs|
    ensures Apply(pairs[k..], gamma, DownTo(pairs, q, k))
         == Up(pairs[k], DownTo(pairs, q, k), Apply(pairs[k + 1..], gamma, DownTo(pairs, q, k + 1)))
  {
    assert pairs[k..][0] == pairs[k] && pairs[k..][1..] == pairs[k + 1..];
  }

  lemma ApplyEnds(pairs: seq<Pair>, gamma: real, q: Vec)
    requires AllShaped(pairs, |q|)
    ensures Apply(pairs[|pairs|..], gamma, DownTo(pairs, q, |pairs|)) == Scale(gamma, DownTo(pairs, q, |pairs|))
    ensures Apply(pairs[0..], gamma, DownTo(pairs, q, 0)) == Apply(pairs, gamma, q)
  {
    assert pairs[0..] == pairs;
  }

  method PreviousSlot(j: nat, m: nat) returns (k: nat)
    requires j < m
    ensures k == if j == 0 then m - 1 else j - 1
  {
    ModOnce(j + m - 1, m);
    k := (j + m - 1) % m;
  }

  method NextSlot(j: nat, m: nat) returns (k: nat)
    requires j < m
    ensures k == if j + 1 == m then 0 else j + 1
  {
    ModOnce(j + 1, m);
    k := (j + 1) % m;
  }

  method DownStep(d: array<real>, it: Pair) returns (alpha: real)
    requires |it.s| == |it.y| == d.Length && it.ys != 0.0
    modifies d
    ensures alpha == Alpha(it, old(d[..]))
    ensures d[..] == Down(it, old(d[..]))
  {
    var dot := VecDot(it.s, d[..]);
    alpha := dot / it.ys;
    VecAdd(d, it.y, -alpha);
  }

  method UpStep(d: array<real>, it: Pair, alpha: real)
    requires |it.s| == |it.y| == d.Length && it.ys != 0.0
    modifies d
    ensures forall q: Vec | |q| == d.Length && alpha == Alpha(it, q) :: d[..] == Up(it, q, old(d[..]))
  {
    var dot := VecDot(it.y, d[..]);
    var beta := dot / it.ys;
    VecAdd(d, it.s, alpha - beta);
  }

  /** First loop: from the newest pair to the oldest, storing each alpha in its slot. */
  method DownLoop(d: array<real>, alphas: array<real>, ring: seq<Pair>, end: nat, bound: nat, ghost pairs: seq<Pair>)
    returns (j: nat)
    requires end < |ring| == alphas.Length && d != alphas
    requires Holds(ring, end, pairs) && bound == |pairs| && AllShaped(pairs, d.Length)
    modifies d, alphas
    ensures j == Behind(end, bound, |ring|)
    ensures d[..] == DownTo(pairs, old(d[..]), bound)
    ensures AlphasStored(alphas[..], pairs, old(d[..]), end, bound)
  {
    hide Mul, Dot, Axpy, Down, Alpha;
    ghost var q := d[..];
    var m := |ring|;
    j := end;
    for i := 0 to bound
      invariant j == Behind(end, i, m)
      invariant d[..] == DownTo(pairs, q, i)
      invariant AlphasStored(alphas[..], pairs, q, end, i)
    {
      j := PreviousSlot(j, m);
      AlphaStore(alphas[..], pairs, q, end, i);
      var alpha := DownStep(d, ring[j]);
      alphas[j] := alpha;
    }
  }

  /** Second loop: back from the oldest pair to the newest. */
  method UpLoop(d: array<real>, alphas: array<real>, ring: seq<Pair>, end: nat, bound: nat, start: nat,
                ghost pairs: seq<Pair>, ghost gamma: real, ghost q: Vec)
    requires end < |ring| == alphas.Length && d != alphas && |q| == d.Length
    requires Holds(ring, end, pairs) && bound == |pairs| && AllShaped(pairs, d.Length)
    requires start == Behind(end, bound, |ring|)
    requires AlphasStored(alphas[..], pairs, q, end, bound)
    requires d[..] == Scale(gamma, DownTo(pairs, q, bound))
    modifies d
    ensures d[..] == Apply(pairs, gamma, q)
  {
    hide Mul, Dot, Axpy, Scale, Down, Up, Alpha, Beta, Apply, DownTo;
    var m := |ring|;
    var j := start;
    ApplyEnds(pairs, gamma, q);
    ghost var stored := alphas[..];
    for k := bound downto 0
      invariant k == bound ==> j == start
      invariant 0 < k < bound ==> j == Behind(end, k, m)
      invariant d[..] == Apply(pairs[k..], gamma, DownTo(pairs, q, k))
    {
      assert stored[Behind(end, k + 1, m)] == AlphaAt(pairs, q, k);
      ApplyUnfold(pairs, gamma, q, k);
      UpStep(d, ring[j], alphas[j]);
      j := NextSlot(j, m);
    }
  }

  /** Both loops: d becomes the operator of the stored pairs applied to the old d. */
  method TwoLoop(d: array<real>, alphas: array<real>, ring: seq<Pair>, end: nat, bound: nat, gamma: real)
    requires end < |ring| == alphas.Length && bound <= |ring| && d != alphas
    requires AllShaped(Recent(ring, end, bound), d.Length)
    modifies d, alphas
    ensures d[..] == Apply(Recent(ring, end, bound), gamma, old(d[..]))
  {
    ghost var q, pairs := d[..], Recent(ring, end, bound);
    var j := DownLoop(d, alphas, ring, end, bound, pairs);
    VecScale(d, gamma);
    UpLoop(d, alphas, ring, end, bound, j, pairs, gamma, q);
  }
}
