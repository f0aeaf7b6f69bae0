/**
 The voxel traversal of raycast.cpp in exact arithmetic, with the infinities that its divisions by zero
 produce. The direction is the difference of the end cells, not of the end points.
 */
module RayCaster {
  import opened Rounding
  import opened Vectors

  /** A double as far as the traversal looks at it. */
  datatype Ext = Fin(r: real) | Inf | NaN

  predicate Less(a: Ext, b: Ext) {
    (a.Fin? && b.Fin? && a.r < b.r) || (a.Fin? && b.Inf?)
  }

  function AddExt(a: Ext, b: Ext): Ext {
    if a.NaN? || b.NaN? then NaN
    else if a.Inf? || b.Inf? then Inf
    else Fin(a.r + b.r)
  }

  function Signum(x: int): int { if x == 0 then 0 else if x < 0 then -1 else 1 }

  function Abs(x: int): nat { if x < 0 then -x else x }

  /** fmod: the remainder of truncating division. */
  function FMod(value: real, modulus: real): real
    requires modulus > 0.0
  {
    value - Trunc(value / modulus) as real * modulus
  }

  function Mod(value: real, modulus: real): real
    requires modulus > 0.0
  {
    FMod(FMod(value, modulus) + modulus, modulus)
  }

  lemma ModOneIsFraction(v: real)
    ensures Mod(v, 1.0) == v - v.Floor as real
    ensures 0.0 <= Mod(v, 1.0) < 1.0
  {
    var f := FMod(v, 1.0);
    assert v / 1.0 == v;
    assert (f + 1.0) / 1.0 == f + 1.0;
    assert f == v - Trunc(v) as real;
    if v >= 0.0 {
      assert (f + 1.0).Floor == 1;
    } else {
      var w := -v;
      assert f == w.Floor as real - w;
      if f == 0.0 {
        assert v == (-(w.Floor)) as real;
        assert (f + 1.0).Floor == 1;
      } else {
        assert (f + 1.0).Floor == 0;
        assert v.Floor == -(w.Floor) - 1;
      }
    }
  }

  /** intbound, with x / 0 infinite for positive x. */
  function IntBound(s: real, ds: real): Ext
    decreases ds < 0.0
  {
    if ds < 0.0 then IntBound(-s, -ds)
    else
      var s' := Mod(s, 1.0);
      if ds == 0.0 then (if 1.0 - s' > 0.0 then Inf else NaN) else Fin((1.0 - s') / ds)
  }

  function AsReal(k: int): real { k as real }

  ghost predicate IsInteger(r: real) { exists k: int :: AsReal(k) == r }

  lemma SmallerProduct(t: real, t': real, d: real)
    requires 0.0 < t' < t && 0.0 < d
    ensures 0.0 < Mul(t', d) < Mul(t, d)
  {
    ProductPositive(t', d);
    ProductPositive(t - t', d);
    assert Mul(t - t', d) == Mul(t, d) - Mul(t', d);
  }

  lemma IntBoundValue(s: real, ds: real)
    requires ds > 0.0
    ensures IntBound(s, ds).Fin? && 0.0 < IntBound(s, ds).r
    ensures Mul(IntBound(s, ds).r, ds) == 1.0 - (s - s.Floor as real)
  {
    hide Mul, Mod;
    ModOneIsFraction(s);
    QuotientTimes(1.0 - Mod(s, 1.0), ds);
    QuotientPositive(1.0 - Mod(s, 1.0), ds);
  }

  lemma IntegerValue(r: real, k: int)
    ensures r == k as real ==> IsInteger(r)
    ensures k as real < r < (k + 1) as real ==> !IsInteger(r)
  {
    if r == k as real {
      assert AsReal(k) == r;
    } else if IsInteger(r) {
      var j: int :| AsReal(j) == r;
      assert j <= k || j >= k + 1;
    }
  }

  /** For a positive slope: the smallest positive t at which s + t * ds is an integer. */
  lemma IntBoundUp(s: real, ds: real, t': real)
    requires ds > 0.0
    ensures IntBound(s, ds).Fin? && 0.0 < IntBound(s, ds).r && Mul(IntBound(s, ds).r, ds) <= 1.0
    ensures IsInteger(s + Mul(IntBound(s, ds).r, ds))
    ensures 0.0 < t' < IntBound(s, ds).r ==> !IsInteger(s + Mul(t', ds))
  {
    hide Mul, IntBound, IsInteger;
    IntBoundValue(s, ds);
    var t := IntBound(s, ds).r;
    var k := s.Floor;
    IntegerValue(s + Mul(t, ds), k + 1);
    IntegerValue(s + Mul(t', ds), k);
    if 0.0 < t' < t {
      SmallerProduct(t, t', ds);
    }
  }

  /** Either direction, mirrored for a negative slope. */
  lemma IntBoundIsFirstCrossing(s: real, ds: real, t': real)
    requires ds != 0.0
    ensures IntBound(s, ds).Fin? && 0.0 < IntBound(s, ds).r
    ensures IsInteger(s + Mul(IntBound(s, ds).r, ds))
    ensures 0.0 < t' < IntBound(s, ds).r ==> !IsInteger(s + Mul(t', ds))
  {
    if ds > 0.0 {
      IntBoundUp(s, ds, t');
    } else {
      IntBoundUp(-s, -ds, t');
      var t := IntBound(s, ds).r;
      Mirror(s, ds, t);
      Mirror(s, ds, t');
    }
  }

  lemma Mirror(s: real, ds: real, t: real)
    ensures IsInteger(s + Mul(t, ds)) <==> IsInteger(-s + Mul(t, -ds))
  {
    var a := s + Mul(t, ds);
    assert -s + Mul(t, -ds) == -a;
    NegatedInteger(a);
    NegatedInteger(-a);
  }

  lemma NegatedInteger(a: real)
    ensures IsInteger(a) ==> IsInteger(-a)
  {
    if IsInteger(a) {
      var k: int :| AsReal(k) == a;
      assert AsReal(-k) == -a;
    }
  }

  // ---------- one axis ----------

  /** The fields of one axis; d is the cell difference dx_, first the tMax set up at the start. */
  datatype Axis = Axis(cur: int, end: int, d: int, step: int, tMax: Ext, tDelta: Ext, first: Ext)

  /** setInput on one axis. */
  function StartAxis(start: real, end: real): Axis {
    var cur, e := start.Floor, end.Floor;
    var d := e - cur;
    var step := Signum(d);
    var t := IntBound(start, d as real);
    Axis(cur, e, d, step, t, if d == 0 then NaN else Fin(step as real / d as real), t)
  }

  function Advance(a: Axis): Axis {
    a.(cur := a.cur + a.step, tMax := AddExt(a.tMax, a.tDelta))
  }

  function Remaining(a: Axis): nat { Abs(a.end - a.cur) }

  /** After c crossings the next one is at first + c / |d|. */
  ghost predicate AxisOk(a: Axis) {
    var n := Abs(a.d);
    var c := n - Remaining(a);
    && a.step == Signum(a.d) && 0 <= c
    && a.cur == a.end - a.step * Remaining(a)
    && (n == 0 ==> a.tMax.Inf? && a.tDelta.NaN?)
    && (n > 0 ==>
          && a.first.Fin? && 0.0 < a.first.r && Mul(a.first.r, n as real) <= 1.0
          && a.tDelta.Fin? && Mul(a.tDelta.r, n as real) == 1.0
          && a.tMax == Fin(a.first.r + Mul(c as real, a.tDelta.r)))
  }

  lemma StartAxisOk(start: real, end: real)
    ensures AxisOk(StartAxis(start, end))
    ensures StartAxis(start, end).cur == start.Floor && StartAxis(start, end).end == end.Floor
  {
    hide IntBound, Mul;
    var a := StartAxis(start, end);
    if a.d == 0 {
      IntBoundZero(start);
    } else {
      var n := Abs(a.d);
      if a.d > 0 {
        IntBoundUp(start, n as real, 1.0);
      } else {
        IntBoundDown(start, n as real);
        IntBoundUp(-start, n as real, 1.0);
      }
      StartDelta(a.d);
      assert Mul(0.0, a.tDelta.r) == 0.0 by { ZeroTimes(a.tDelta.r); }
    }
  }

  lemma ZeroTimes(a: real)
    ensures Mul(0.0, a) == 0.0
  {
  }

  lemma IntBoundZero(s: real)
    ensures IntBound(s, 0.0).Inf?
  {
    ModOneIsFraction(s);
  }

  lemma IntBoundDown(s: real, n: real)
    requires n > 0.0
    ensures IntBound(s, -n) == IntBound(-s, n)
  {
  }

  lemma StartDelta(d: int)
    requires d != 0
    ensures Mul(Signum(d) as real / d as real, Abs(d) as real) == 1.0
  {
    QuotientTimes(Signum(d) as real, d as real);
  }

  /** An axis with crossings left crosses by time 1; a finished one only after it, or never. */
  lemma AxisTime(a: Axis)
    requires AxisOk(a)
    ensures Remaining(a) > 0 ==> a.tMax.Fin? && a.tMax.r <= 1.0
    ensures Remaining(a) == 0 ==> a.tMax.Inf? || (a.tMax.Fin? && a.tMax.r > 1.0)
  {
    var n := Abs(a.d);
    if n > 0 {
      var c := n - Remaining(a);
      var nr := n as real;
      TimeScaled(a.first.r, c as real, a.tDelta.r, nr);
      var t := a.tMax.r;
      if Remaining(a) > 0 {
        assert Mul(t, nr) <= nr;
        if t > 1.0 { SmallerProduct(t, 1.0, nr); }
      } else {
        ProductPositive(a.first.r, nr);
        assert Mul(t, nr) > nr;
        if t < 1.0 { ScaledBelow(t, nr); }
      }
    }
  }

  lemma ScaledBelow(t: real, n: real)
    requires t <= 1.0 && n > 0.0
    ensures Mul(t, n) <= n
  {
    assert (1.0 - t) * n >= 0.0;
  }

  lemma TimeScaled(first: real, c: real, delta: real, n: real)
    requires Mul(delta, n) == 1.0
    ensures Mul(first + Mul(c, delta), n) == Mul(first, n) + c
  {
    assert (first + c * delta) * n == first * n + c * (delta * n);
  }

  lemma AdvanceKeepsOk(a: Axis)
    requires AxisOk(a) && Remaining(a) > 0
    ensures AxisOk(Advance(a)) && Remaining(Advance(a)) == Remaining(a) - 1
    ensures Abs(a.cur - Advance(a).cur) == 1 && Advance(a).end == a.end
  {
    var c := Abs(a.d) - Remaining(a);
    assert Mul((c + 1) as real, a.tDelta.r) == Mul(c as real, a.tDelta.r) + a.tDelta.r;
  }

  lemma AtEnd(a: Axis)
    ensures Remaining(a) == 0 <==> a.cur == a.end
  {
  }

  // ---------- the choice ----------

  datatype Choice = X | Y | Z

  function Choose(tx: Ext, ty: Ext, tz: Ext): Choice {
    if Less(tx, ty) then (if Less(tx, tz) then X else Z)
    else if Less(ty, tz) then Y else Z
  }

  /** While some axis has crossings left, the chosen one has, and its time is finite. */
  lemma ChosenHasCrossings(x: Axis, y: Axis, z: Axis)
    requires AxisOk(x) && AxisOk(y) && AxisOk(z)
    requires Remaining(x) + Remaining(y) + Remaining(z) > 0
    ensures var chosen := match Choose(x.tMax, y.tMax, z.tMax) case X => x case Y => y case Z => z;
            Remaining(chosen) > 0 && chosen.tMax.Fin?
  {
    hide AxisOk;
    AxisTime(x);
    AxisTime(y);
    AxisTime(z);
  }

  datatype Cell = Cell(x: int, y: int, z: int)

  function L1(a: Cell, b: Cell): nat { Abs(b.x - a.x) + Abs(b.y - a.y) + Abs(b.z - a.z) }

  predicate Between(a: int, b: int, c: int) { (a <= b <= c) || (c <= b <= a) }

  predicate InHull(a: Cell, c: Cell, b: Cell) {
    Between(a.x, c.x, b.x) && Between(a.y, c.y, b.y) && Between(a.z, c.z, b.z)
  }

  /** The axes after one move. */
  function Moved(x: Axis, y: Axis, z: Axis): (Axis, Axis, Axis) {
    match Choose(x.tMax, y.tMax, z.tMax)
    case X => (Advance(x), y, z)
    case Y => (x, Advance(y), z)
    case Z => (x, y, Advance(z))
  }

  function At(x: Axis, y: Axis, z: Axis): Cell { Cell(x.cur, y.cur, z.cur) }
  function Target(x: Axis, y: Axis, z: Axis): Cell { Cell(x.end, y.end, z.end) }

  /** A move crosses one face, at a finite time, and brings the end cell one step closer. */
  lemma MoveFacts(x: Axis, y: Axis, z: Axis)
    requires AxisOk(x) && AxisOk(y) && AxisOk(z) && At(x, y, z) != Target(x, y, z)
    ensures var (x', y', z') := Moved(x, y, z);
            && AxisOk(x') && AxisOk(y') && AxisOk(z') && Target(x', y', z') == Target(x, y, z)
            && L1(At(x', y', z'), At(x, y, z)) == 1
            && L1(At(x', y', z'), Target(x, y, z)) + 1 == L1(At(x, y, z), Target(x, y, z))
    ensures match Choose(x.tMax, y.tMax, z.tMax) case X => x.tMax.Fin? case Y => y.tMax.Fin? case Z => z.tMax.Fin?
  {
    assert Abs(0) == 0;
    hide AxisOk, Abs, Advance, Less;
    AtEnd(x);
    AtEnd(y);
    AtEnd(z);
    ChosenHasCrossings(x, y, z);
    match Choose(x.tMax, y.tMax, z.tMax) {
      case X => AdvanceKeepsOk(x);
      case Y => AdvanceKeepsOk(y);
      case Z => AdvanceKeepsOk(z);
    }
  }

  // ---------- the line ----------

  /** From an integer downwards, intbound skips the crossing at the start: the walk is one cell behind on that axis. */
  function Lag(s: real, d: int): int { if d < 0 && s == s.Floor as real then 1 else 0 }

  /** At time t the line is in column k of the axis, or on one of its faces; or in the column below, if behind. */
  ghost predicate OnAxis(s: real, d: int, t: real, k: int) {
    (k - Lag(s, d)) as real <= s + Mul(t, d as real) <= (k - Lag(s, d) + 1) as real
  }

  /** The face that an axis crosses next. */
  function NextFace(s: real, a: Axis): int { if a.d > 0 then a.cur + 1 else a.cur - Lag(s, a.d) }

  /** At time t the line is in the current column, and tMax is when it reaches the next face. */
  ghost predicate Along(s: real, a: Axis, t: real) {
    && AxisOk(a) && OnAxis(s, a.d, t, a.cur)
    && (a.d != 0 ==> t <= a.tMax.r && s + Mul(a.tMax.r, a.d as real) == NextFace(s, a) as real)
  }

  lemma StartAlong(start: real, end: real)
    ensures Along(start, StartAxis(start, end), 0.0)
  {
    StartAxisOk(start, end);
    var a := StartAxis(start, end);
    ZeroTimes(a.d as real);
    if a.d != 0 {
      FirstFace(start, end);
    }
    hide AxisOk, Mul, IntBound;
  }

  lemma FirstFace(start: real, end: real)
    requires StartAxis(start, end).d != 0
    ensures var a := StartAxis(start, end);
            a.tMax.Fin? && 0.0 < a.tMax.r && start + Mul(a.tMax.r, a.d as real) == NextFace(start, a) as real
  {
    var a := StartAxis(start, end);
    if a.d > 0 {
      IntBoundValue(start, a.d as real);
    } else {
      var n := -a.d;
      IntBoundDown(start, n as real);
      IntBoundValue(-start, n as real);
      assert Mul(a.tMax.r, a.d as real) == -Mul(a.tMax.r, n as real);
      hide Mul, IntBound;
      assert (-start).Floor == if start == start.Floor as real then -start.Floor else -start.Floor - 1;
    }
  }

  /** Crossing the next face leads into the next column. */
  lemma AdvanceAlong(s: real, a: Axis, t: real)
    requires Along(s, a, t) && Remaining(a) > 0
    ensures a.tMax.Fin? && Advance(a).d == a.d && Along(s, Advance(a), a.tMax.r)
  {
    AdvanceKeepsOk(a);
    var d := a.d as real;
    assert Abs(a.d) > 0;
    NextCrossing(a.tMax.r, a.tDelta.r, d, if a.d > 0 then 1.0 else -1.0) by {
      assert Mul(a.tDelta.r, Abs(a.d) as real) == 1.0;
      assert a.d < 0 ==> Mul(a.tDelta.r, d) == -Mul(a.tDelta.r, -d);
    }
    DeltaPositive(a.tDelta.r, Abs(a.d) as real);
    hide Mul, AxisOk;
  }

  lemma NextCrossing(t: real, delta: real, d: real, step: real)
    requires Mul(delta, d) == step
    ensures Mul(t + delta, d) == Mul(t, d) + step
  {
  }

  lemma DeltaPositive(delta: real, n: real)
    requires 0.0 < n && Mul(delta, n) == 1.0
    ensures 0.0 < delta
  {
  }

  /** An axis that does not move stays in its column up to its next face. */
  lemma StayAlong(s: real, a: Axis, t: real, t': real)
    requires Along(s, a, t) && t <= t' && (a.tMax.Fin? ==> t' <= a.tMax.r)
    ensures Along(s, a, t')
  {
    var d := a.d as real;
    if a.d == 0 {
      assert Mul(t, 0.0) == Mul(t', 0.0) == 0.0;
    } else {
      ScaleSteady(t, t', d);
      ScaleSteady(t', a.tMax.r, d);
    }
    hide Mul, AxisOk;
  }

  lemma ScaleSteady(t: real, t': real, d: real)
    requires t <= t'
    ensures 0.0 <= d ==> Mul(t, d) <= Mul(t', d)
    ensures d <= 0.0 ==> Mul(t', d) <= Mul(t, d)
  {
    assert 0.0 <= d ==> 0.0 <= (t' - t) * d;
    assert d <= 0.0 ==> 0.0 <= (t' - t) * -d;
  }

  /** A time at which an axis crosses nothing before it does. */
  predicate NotAfter(t: real, a: Axis) { a.tMax.Fin? ==> t <= a.tMax.r }

  /** The chosen axis has the least next crossing, and it comes by time 1. */
  lemma ChosenIsLeast(x: Axis, y: Axis, z: Axis)
    requires AxisOk(x) && AxisOk(y) && AxisOk(z)
    requires Remaining(x) + Remaining(y) + Remaining(z) > 0
    ensures var chosen := match Choose(x.tMax, y.tMax, z.tMax) case X => x case Y => y case Z => z;
            && Remaining(chosen) > 0 && chosen.tMax.Fin? && chosen.tMax.r <= 1.0
            && NotAfter(chosen.tMax.r, x) && NotAfter(chosen.tMax.r, y) && NotAfter(chosen.tMax.r, z)
  {
    hide AxisOk;
    AxisTime(x);
    AxisTime(y);
    AxisTime(z);
  }

  ghost predicate OnLine(start: (real, real, real), x: Axis, y: Axis, z: Axis, t: real) {
    0.0 <= t <= 1.0 && Along(start.0, x, t) && Along(start.1, y, t) && Along(start.2, z, t)
  }

  lemma AlongOk(s: real, a: Axis, t: real)
    requires Along(s, a, t)
    ensures AxisOk(a) && OnAxis(s, a.d, t, a.cur) && (a.tMax.Fin? && a.d != 0 ==> t <= a.tMax.r)
  {
  }

  /** A move takes the line to the next crossing, and the cell along with it. */
  lemma MoveOnLine(start: (real, real, real), x: Axis, y: Axis, z: Axis, t: real) returns (t': real)
    requires OnLine(start, x, y, z, t) && At(x, y, z) != Target(x, y, z)
    ensures var (x', y', z') := Moved(x, y, z);
            && OnLine(start, x', y', z', t') && t <= t'
            && x'.d == x.d && y'.d == y.d && z'.d == z.d
  {
    hide AxisOk, OnAxis, Advance, Less, Along, Mul, Remaining, NotAfter;
    AlongOk(start.0, x, t);
    AlongOk(start.1, y, t);
    AlongOk(start.2, z, t);
    SomeRemain(x, y, z);
    ChosenIsLeast(x, y, z);
    match Choose(x.tMax, y.tMax, z.tMax) {
      case X =>
        t' := x.tMax.r;
        MoverFirst(start, x, y, z, t);
      case Y =>
        t' := y.tMax.r;
        MoverFirst((start.1, start.0, start.2), y, x, z, t);
      case Z =>
        t' := z.tMax.r;
        MoverFirst((start.2, start.0, start.1), z, x, y, t);
    }
  }

  lemma SomeRemain(x: Axis, y: Axis, z: Axis)
    requires At(x, y, z) != Target(x, y, z)
    ensures Remaining(x) + Remaining(y) + Remaining(z) > 0
  {
    AtEnd(x);
    AtEnd(y);
    AtEnd(z);
  }

  /** The first axis moves, the other two stay. */
  lemma MoverFirst(start: (real, real, real), x: Axis, y: Axis, z: Axis, t: real)
    requires OnLine(start, x, y, z, t) && Remaining(x) > 0
    requires x.tMax.Fin? && x.tMax.r <= 1.0 && NotAfter(x.tMax.r, y) && NotAfter(x.tMax.r, z)
    ensures OnLine(start, Advance(x), y, z, x.tMax.r) && t <= x.tMax.r && Advance(x).d == x.d
  {
    MovesLater(start.0, x, t);
    AdvanceAlong(start.0, x, t);
    StayAlong(start.1, y, t, x.tMax.r);
    StayAlong(start.2, z, t, x.tMax.r);
    hide Along, Advance;
  }

  lemma MovesLater(s: real, a: Axis, t: real)
    requires Along(s, a, t) && Remaining(a) > 0
    ensures a.tMax.Fin? && t <= a.tMax.r
  {
    hide Mul, OnAxis;
  }

  ghost predicate MeetsAt(start: (real, real, real), a: Cell, b: Cell, c: Cell, t: real) {
    && 0.0 <= t <= 1.0 && OnAxis(start.0, b.x - a.x, t, c.x) && OnAxis(start.1, b.y - a.y, t, c.y)
    && OnAxis(start.2, b.z - a.z, t, c.z)
  }

  /** The line from start, in the direction of the difference of the end cells, meets the cell by time 1. */
  ghost predicate Meets(start: (real, real, real), a: Cell, b: Cell, c: Cell) {
    exists t: real :: MeetsAt(start, a, b, c, t)
  }

  lemma OnLineMeets(start: (real, real, real), a: Cell, b: Cell, x: Axis, y: Axis, z: Axis, t: real)
    requires OnLine(start, x, y, z, t) && (x.d, y.d, z.d) == (b.x - a.x, b.y - a.y, b.z - a.z)
    ensures Meets(start, a, b, At(x, y, z))
  {
    hide AxisOk, OnAxis;
    assert MeetsAt(start, a, b, At(x, y, z), t);
  }

  ghost predicate InColumn(s: real, d: int, t: real, k: int) {
    k as real <= s + Mul(t, d as real) <= (k + 1) as real
  }

  ghost predicate TouchesAt(start: (real, real, real), a: Cell, b: Cell, c: Cell, t: real) {
    && 0.0 <= t <= 1.0 && InColumn(start.0, b.x - a.x, t, c.x) && InColumn(start.1, b.y - a.y, t, c.y)
    && InColumn(start.2, b.z - a.z, t, c.z)
  }

  /** The closed cell itself touches the line. */
  ghost predicate Touches(start: (real, real, real), a: Cell, b: Cell, c: Cell) {
    exists t: real :: TouchesAt(start, a, b, c, t)
  }

  /** Where no axis leads down from an integer, meeting is touching. */
  lemma MeetsTouches(start: (real, real, real), a: Cell, b: Cell, c: Cell)
    requires Lag(start.0, b.x - a.x) == Lag(start.1, b.y - a.y) == Lag(start.2, b.z - a.z) == 0
    ensures Meets(start, a, b, c) <==> Touches(start, a, b, c)
  {
    hide Lag, Mul;
    assert forall t :: MeetsAt(start, a, b, c, t) <==> TouchesAt(start, a, b, c, t);
  }

  class RayCaster {
    var x: Axis
    var y: Axis
    var z: Axis

    ghost predicate Valid()
      reads this
    {
      AxisOk(x) && AxisOk(y) && AxisOk(z)
    }

    function Here(): Cell
      reads this
    {
      Cell(x.cur, y.cur, z.cur)
    }

    function End(): Cell
      reads this
    {
      Cell(x.end, y.end, z.end)
    }

    constructor () {
      x, y, z := StartAxis(0.0, 0.0), StartAxis(0.0, 0.0), StartAxis(0.0, 0.0);
    }

    /** False when start and end lie in one cell. */
    method SetInput(start: (real, real, real), end: (real, real, real)) returns (moving: bool)
      modifies this
      ensures Valid()
      ensures Here() == Cell(start.0.Floor, start.1.Floor, start.2.Floor)
      ensures End() == Cell(end.0.Floor, end.1.Floor, end.2.Floor)
      ensures moving <==> Here() != End()
      ensures OnLine(start, x, y, z, 0.0)
      ensures (x.d, y.d, z.d) == (End().x - Here().x, End().y - Here().y, End().z - Here().z)
    {
      StartAlong(start.0, end.0);
      StartAlong(start.1, end.1);
      StartAlong(start.2, end.2);
      hide Along;
      StartAxisOk(start.0, end.0);
      StartAxisOk(start.1, end.1);
      StartAxisOk(start.2, end.2);
      x, y, z := StartAxis(start.0, end.0), StartAxis(start.1, end.1), StartAxis(start.2, end.2);
      moving := !(x.step == 0 && y.step == 0 && z.step == 0);
    }

    /** Report the cell; unless it is the end cell, cross one face towards the end, at the earliest crossing time. */
    method Step() returns (moved: bool, point: Cell)
      requires Valid()
      modifies this
      ensures Valid() && End() == old(End())
      ensures point == old(Here())
      ensures moved <==> old(Here()) != End()
      ensures if moved then L1(Here(), old(Here())) == 1 && L1(Here(), End()) + 1 == L1(old(Here()), End())
              else Here() == old(Here()) && (x, y, z) == (old(x), old(y), old(z))
      ensures moved ==> (x, y, z) == Moved(old(x), old(y), old(z))
    {
      hide AxisOk, L1, Advance, AddExt, Less;
      point := Here();
      if x.cur == x.end && y.cur == y.end && z.cur == z.end {
        return false, point;
      }
      MoveFacts(x, y, z);
      if Less(x.tMax, y.tMax) {
        if Less(x.tMax, z.tMax) {
          x := Advance(x);
        } else {
          z := Advance(z);
        }
      } else if Less(y.tMax, z.tMax) {
        y := Advance(y);
      } else {
        z := Advance(z);
      }
      moved := true;
    }
  }

  /** A walk of unit steps, each one cell closer to the end, stays in the box spanned by its ends. */
  ghost predicate DirectPath(cells: seq<Cell>, end: Cell) {
    forall i | 0 < i < |cells| :: L1(cells[i - 1], cells[i]) == 1 && L1(cells[i], end) + 1 == L1(cells[i - 1], end)
  }

  lemma {:induction false} DirectPathStaysInHull(cells: seq<Cell>, end: Cell, i: nat)
    requires DirectPath(cells, end) && i < |cells|
    ensures InHull(cells[0], cells[i], end)
    ensures L1(cells[i], end) + i == L1(cells[0], end)
    decreases i
  {
    if i > 0 {
      DirectPathStaysInHull(cells, end, i - 1);
      assert L1(cells[i - 1], cells[i]) == 1 && L1(cells[i], end) + 1 == L1(cells[i - 1], end);
      InHullStep(cells[0], cells[i - 1], cells[i], end);
    }
  }

  lemma InHullStep(a: Cell, c: Cell, c': Cell, b: Cell)
    requires InHull(a, c, b) && L1(c, c') == 1 && L1(c', b) + 1 == L1(c, b)
    ensures InHull(a, c', b)
  {
  }

  /** A step, and the time at which the line is in the cell it leads to. */
  method StepOnLine(rc: RayCaster, ghost start: (real, real, real), ghost a: Cell, ghost b: Cell, ghost t: real)
    returns (ghost t': real, moved: bool, point: Cell)
    requires rc.Valid() && OnLine(start, rc.x, rc.y, rc.z, t) && rc.End() == b
    requires (rc.x.d, rc.y.d, rc.z.d) == (b.x - a.x, b.y - a.y, b.z - a.z)
    modifies rc
    ensures rc.Valid() && rc.End() == b && point == old(rc.Here()) && (moved <==> point != b)
    ensures if moved then L1(rc.Here(), point) == 1 && L1(rc.Here(), b) + 1 == L1(point, b) else rc.Here() == point
    ensures OnLine(start, rc.x, rc.y, rc.z, t') && t <= t' && Meets(start, a, b, point)
    ensures (rc.x.d, rc.y.d, rc.z.d) == (b.x - a.x, b.y - a.y, b.z - a.z)
  {
    hide L1, Meets, OnLine, Moved, AxisOk;
    OnLineMeets(start, a, b, rc.x, rc.y, rc.z, t);
    t' := t;
    if rc.Here() != rc.End() {
      t' := MoveOnLine(start, rc.x, rc.y, rc.z, t);
    }
    moved, point := rc.Step();
  }

  /** The loop of raycastProcess: the cells reported before the end cell is reached. */
  method Traverse(start: (real, real, real), end: (real, real, real)) returns (cells: seq<Cell>, last: Cell)
    ensures var a, b := Cell(start.0.Floor, start.1.Floor, start.2.Floor), Cell(end.0.Floor, end.1.Floor, end.2.Floor);
            // exactly |dx| + |dy| + |dz| steps report a move, and then the end cell is reported
            && |cells| == L1(a, b) && last == b
            && (cells + [last])[0] == a
            && DirectPath(cells + [last], b)
            && (forall c | c in cells :: InHull(a, c, b))
            // and each meets the line
            && forall c | c in cells + [last] :: Meets(start, a, b, c)
  {
    hide L1, Abs, InHull, DirectPath, Meets, OnLine, Moved;
    var rc := new RayCaster();
    var moving := rc.SetInput(start, end);
    ghost var a, b := rc.Here(), rc.End();
    cells := [];
    var moved: bool, point: Cell;
    ghost var t := 0.0;
    t, moved, point := StepOnLine(rc, start, a, b, t);
    assert cells + [point] == [point];
    OneCell(point, b);
    while moved
      invariant rc.Valid() && rc.End() == b && OnLine(start, rc.x, rc.y, rc.z, t)
      invariant (rc.x.d, rc.y.d, rc.z.d) == (b.x - a.x, b.y - a.y, b.z - a.z)
      invariant forall c | c in cells + [point] :: Meets(start, a, b, c)
      invariant (cells + [point])[0] == a && DirectPath(cells + [point], b)
      invariant if moved then L1(rc.Here(), point) == 1 && L1(rc.Here(), b) + 1 == L1(point, b)
                else point == rc.Here() == b
      decreases L1(rc.Here(), b) + (if moved then 1 else 0)
    {
      ghost var path := cells + [point];
      cells := cells + [point];
      t, moved, point := StepOnLine(rc, start, a, b, t);
      assert cells + [point] == path + [point];
      OneMoreCell(path, point, b);
    }
    last := point;
    ghost var path := cells + [last];
    DirectPathStaysInHull(path, b, |cells|);
    SamePlace(b);
    forall c | c in cells
      ensures InHull(a, c, b)
    {
      var i :| 0 <= i < |cells| && cells[i] == c;
      assert path[i] == c;
      DirectPathStaysInHull(path, b, i);
    }
  }

  lemma SamePlace(a: Cell)
    ensures L1(a, a) == 0
  {
  }

  lemma OneCell(c: Cell, end: Cell)
    ensures DirectPath([c], end)
  {
  }

  lemma OneMoreCell(path: seq<Cell>, c: Cell, end: Cell)
    requires |path| > 0 && DirectPath(path, end)
    requires L1(c, path[|path| - 1]) == 1 && L1(c, end) + 1 == L1(path[|path| - 1], end)
    ensures DirectPath(path + [c], end)
  {
    hide L1;
    L1Symmetric(path[|path| - 1], c);
  }

  lemma L1Symmetric(a: Cell, b: Cell)
    ensures L1(a, b) == L1(b, a)
  {
  }

  // ---------- a ray that starts on a face ----------

  const FACE := (1.0, 0.5, 0.5)
  const BEYOND := (0.5, 2.5, 0.5)

  /** From x = 1 down, and up in y: the second cell reported is (1, 1, 0), which the line does not touch. */
  lemma MissesCell()
    ensures var (x, y, z) := (StartAxis(FACE.0, BEYOND.0), StartAxis(FACE.1, BEYOND.1), StartAxis(FACE.2, BEYOND.2));
            var (x', y', z') := Moved(x, y, z);
            At(x', y', z') == Cell(1, 1, 0) && !Touches(FACE, At(x, y, z), Target(x, y, z), At(x', y', z'))
  {
    FaceAxes();
    hide StartAxis, AxisOk;
    NotTouched();
  }

  lemma FaceAxes()
    ensures StartAxis(1.0, 0.5) == Axis(1, 0, -1, -1, Fin(1.0), Fin(1.0), Fin(1.0))
    ensures StartAxis(0.5, 2.5) == Axis(0, 2, 2, 1, Fin(0.25), Fin(0.5), Fin(0.25))
    ensures var z := StartAxis(0.5, 0.5); z.cur == z.end == z.d == 0 && z.tMax == Inf
  {
    FaceBounds();
    hide IntBound;
  }

  lemma FaceBounds()
    ensures IntBound(1.0, -1.0) == Fin(1.0) && IntBound(0.5, 2.0) == Fin(0.25) && IntBound(0.5, 0.0) == Inf
  {
    hide IntBound, Mul;
    IntBoundZero(0.5);
    IntBoundDown(1.0, 1.0);
    BoundIs(-1.0, 1.0, 1.0) by { assert Mul(1.0, 1.0) == 1.0 by { FaceProducts(); } }
    BoundIs(0.5, 2.0, 0.25) by { assert Mul(0.25, 2.0) == 0.5 by { FaceProducts(); } }
  }

  lemma FaceProducts()
    ensures Mul(1.0, 1.0) == 1.0 && Mul(0.25, 2.0) == 0.5
  {
  }

  lemma BoundIs(s: real, ds: real, t: real)
    requires ds > 0.0 && Mul(t, ds) == 1.0 - (s - s.Floor as real)
    ensures IntBound(s, ds) == Fin(t)
  {
    hide IntBound, Mul;
    IntBoundValue(s, ds);
    SameProduct(IntBound(s, ds).r, t, ds);
  }

  lemma SameProduct(a: real, b: real, d: real)
    requires 0.0 < d && Mul(a, d) == Mul(b, d)
    ensures a == b
  {
    hide Mul;
    if a < b {
      LessProduct(a, b, d);
    } else if b < a {
      LessProduct(b, a, d);
    }
  }

  lemma LessProduct(a: real, b: real, d: real)
    requires a < b && 0.0 < d
    ensures Mul(a, d) < Mul(b, d)
  {
    ProductPositive(b - a, d);
    assert Mul(b - a, d) == Mul(b, d) - Mul(a, d);
  }

  lemma NotTouched()
    ensures !Touches(FACE, Cell(1, 0, 0), Cell(0, 2, 0), Cell(1, 1, 0))
  {
    forall t: real
      ensures !TouchesAt(FACE, Cell(1, 0, 0), Cell(0, 2, 0), Cell(1, 1, 0), t)
    {
      assert Mul(t, -1.0) == -t && Mul(t, 2.0) == 2.0 * t;
    }
  }
}
