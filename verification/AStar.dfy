/**
 The grid search of dyn_a_star.cpp: nodes are reused from call to call and told apart by a round stamp,
 keys change inside the heap, and a node found blocked for one heading keeps whatever state it had.
 The order in which the heap yields nodes is left open. Arithmetic is over exact reals.
 */
module AStar {
  import opened Rounding
  import opened Vectors

  datatype Idx = Idx(x: int, y: int, z: int)
  datatype Coord = Coord(x: real, y: real, z: real)

  datatype Geometry = Geometry(step: real, centre: Coord, centreIdx: Idx)

  // ---------- indices and coordinates ----------

  function AxisCoord(step: real, centre: real, mid: int, i: int): real { Mul((i - mid) as real, step) + centre }

  function AxisIndex(step: real, centre: real, mid: int, v: real): int
    requires step > 0.0
  {
    Trunc(Mul(v - centre, 1.0 / step) + 0.5) + mid
  }

  function Index2Coord(g: Geometry, i: Idx): Coord {
    Coord(AxisCoord(g.step, g.centre.x, g.centreIdx.x, i.x),
          AxisCoord(g.step, g.centre.y, g.centreIdx.y, i.y),
          AxisCoord(g.step, g.centre.z, g.centreIdx.z, i.z))
  }

  function Coord2Index(g: Geometry, p: Coord): Idx
    requires g.step > 0.0
  {
    Idx(AxisIndex(g.step, g.centre.x, g.centreIdx.x, p.x),
        AxisIndex(g.step, g.centre.y, g.centreIdx.y, p.y),
        AxisIndex(g.step, g.centre.z, g.centreIdx.z, p.z))
  }

  lemma TimesInverse(a: real, s: real)
    requires s > 0.0
    ensures Mul(Mul(a, s), 1.0 / s) == a
  {
    assert s * (1.0 / s) == 1.0;
    assert a * s * (1.0 / s) == a * (s * (1.0 / s));
  }

  lemma TruncHalf(m: int)
    ensures Trunc(m as real + 0.5) == if m >= 0 then m else m + 1
  {
    if m >= 0 {
      assert (m as real + 0.5).Floor == m;
    } else {
      assert (-(m as real + 0.5)).Floor == -m - 1;
    }
  }

  lemma AxisRoundTrip(step: real, centre: real, mid: int, i: int)
    requires step > 0.0
    ensures AxisIndex(step, centre, mid, AxisCoord(step, centre, mid, i)) == if i >= mid then i else i + 1
  {
    hide Mul, Trunc;
    TimesInverse((i - mid) as real, step);
    TruncHalf(i - mid);
    assert AxisCoord(step, centre, mid, i) - centre == Mul((i - mid) as real, step);
  }

  function Shifted(i: int, mid: int): int { if i >= mid then i else i + 1 }

  /** The round trip is exact at and above the centre index and one too high below it, on each axis. */
  lemma RoundTrip(g: Geometry, i: Idx)
    requires g.step > 0.0
    ensures Coord2Index(g, Index2Coord(g, i))
         == Idx(Shifted(i.x, g.centreIdx.x), Shifted(i.y, g.centreIdx.y), Shifted(i.z, g.centreIdx.z))
  {
    hide AxisIndex, AxisCoord;
    AxisRoundTrip(g.step, g.centre.x, g.centreIdx.x, i.x);
    AxisRoundTrip(g.step, g.centre.y, g.centreIdx.y, i.y);
    AxisRoundTrip(g.step, g.centre.z, g.centreIdx.z, i.z);
  }

  /** A point gets an index below the centre exactly when it lies at least one and a half steps below it. */
  lemma BelowCentre(step: real, centre: real, mid: int, v: real)
    requires step > 0.0
    ensures AxisIndex(step, centre, mid, v) < mid <==> v - centre <= Mul(-1.5, step)
  {
    var w := Mul(v - centre, 1.0 / step);
    assert Mul(w, step) == v - centre by {
      assert (1.0 / step) * step == 1.0;
      assert (v - centre) * (1.0 / step) * step == (v - centre) * ((1.0 / step) * step);
    }
    ScaleOrder(w, -1.5, step);
    if w + 0.5 >= 0.0 {
      assert Trunc(w + 0.5) >= 0;
    } else {
      assert Trunc(w + 0.5) == -((-w - 0.5).Floor);
      assert (-w - 0.5).Floor >= 1 <==> -w - 0.5 >= 1.0;
    }
  }

  lemma ScaleOrder(a: real, b: real, s: real)
    requires s > 0.0
    ensures a <= b <==> Mul(a, s) <= Mul(b, s)
  {
    assert Mul(b, s) - Mul(a, s) == (b - a) * s;
    if a < b {
      ProductPositive(b - a, s);
    } else if b < a {
      ProductPositive(a - b, s);
    }
  }

  // ---------- one search ----------

  /**
   What a call of the search is given: the cells of its two ends, the occupancy test (blocked or not for a
   heading), the root and the heuristic.
   */
  datatype Query = Query(geo: Geometry, size: Idx, start: Idx, end: Idx,
                         free: (Idx, int, int) -> bool, root: int -> real, heuristic: (Idx, Idx) -> real)

  predicate InPool(size: Idx, i: Idx) { 0 <= i.x < size.x && 0 <= i.y < size.y && 0 <= i.z < size.z }

  predicate Interior(size: Idx, i: Idx) {
    1 <= i.x < size.x - 1 && 1 <= i.y < size.y - 1 && 1 <= i.z < size.z - 1
  }

  predicate QueryOk(q: Query) {
    q.geo.step > 0.0 && InPool(q.size, q.start) && InPool(q.size, q.end)
  }

  function XyLen2(q: Query): real {
    var s, e := Index2Coord(q.geo, q.start), Index2Coord(q.geo, q.end);
    Mul(e.x - s.x, e.x - s.x) + Mul(e.y - s.y, e.y - s.y)
  }

  function Clamp01(r: real): real {
    var low := if 1.0 < r then 1.0 else r;
    if 0.0 < low then low else 0.0
  }

  /** The z index of the search plane over a column. */
  function PlaneZ(q: Query, x: int, y: int): int
    requires q.geo.step > 0.0
  {
    if XyLen2(q) < 0.00000001 then q.start.z
    else
      var s, e := Index2Coord(q.geo, q.start), Index2Coord(q.geo, q.end);
      var p := Index2Coord(q.geo, Idx(x, y, q.start.z));
      var ratio := Clamp01((Mul(p.x - s.x, e.x - s.x) + Mul(p.y - s.y, e.y - s.y)) / XyLen2(q));
      AxisIndex(q.geo.step, q.geo.centre.z, q.geo.centreIdx.z, s.z + Mul(ratio, e.z - s.z))
  }

  /** Over the end column the plane meets the end cell exactly when that cell is not below the centre. */
  lemma PlaneAtEnd(q: Query)
    requires q.geo.step > 0.0 && XyLen2(q) >= 0.00000001
    ensures PlaneZ(q, q.end.x, q.end.y) == Shifted(q.end.z, q.geo.centreIdx.z)
  {
    var s, e := Index2Coord(q.geo, q.start), Index2Coord(q.geo, q.end);
    assert XyLen2(q) / XyLen2(q) == 1.0;
    assert Mul(1.0, e.z - s.z) == e.z - s.z;
    hide Mul, AxisIndex;
    AxisRoundTrip(q.geo.step, q.geo.centre.z, q.geo.centreIdx.z, q.end.z);
  }

  lemma TruncOrder(a: real, b: real)
    requires a <= b
    ensures Trunc(a) <= Trunc(b)
  {
  }

  lemma IndexOrder(step: real, centre: real, mid: int, a: real, b: real)
    requires step > 0.0 && a <= b
    ensures AxisIndex(step, centre, mid, a) <= AxisIndex(step, centre, mid, b)
  {
    QuotientPositive(1.0, step);
    ScaleOrder(a - centre, b - centre, 1.0 / step);
    TruncOrder(Mul(a - centre, 1.0 / step) + 0.5, Mul(b - centre, 1.0 / step) + 0.5);
    hide Mul, Trunc;
  }

  /** Heights between two ends: a share of the way, between none and all of it. */
  lemma ShareBetween(a: real, b: real, ratio: real)
    requires 0.0 <= ratio <= 1.0
    ensures if a <= b then a <= a + Mul(ratio, b - a) <= b else b <= a + Mul(ratio, b - a) <= a
  {
    if a <= b {
      ShareOf(b - a, ratio);
    } else {
      ShareOf(a - b, ratio);
      assert Mul(ratio, b - a) == -Mul(ratio, a - b);
    }
  }

  lemma ShareOf(d: real, ratio: real)
    requires 0.0 <= d && 0.0 <= ratio <= 1.0
    ensures 0.0 <= Mul(ratio, d) <= d
  {
    assert 0.0 <= ratio * d && 0.0 <= (1.0 - ratio) * d;
  }

  lemma IndexOfShare(step: real, centre: real, mid: int, a: real, b: real, ratio: real)
    requires step > 0.0 && 0.0 <= ratio <= 1.0
    ensures var (i, j) := (AxisIndex(step, centre, mid, a), AxisIndex(step, centre, mid, b));
            var k := AxisIndex(step, centre, mid, a + Mul(ratio, b - a));
            if a <= b then i <= k <= j else j <= k <= i
  {
    hide Mul, AxisIndex;
    ShareBetween(a, b, ratio);
    var h := a + Mul(ratio, b - a);
    if a <= b {
      IndexOrder(step, centre, mid, a, h);
      IndexOrder(step, centre, mid, h, b);
    } else {
      IndexOrder(step, centre, mid, b, h);
      IndexOrder(step, centre, mid, h, a);
    }
  }

  /** Over every column the plane lies between its ends. */
  lemma PlaneBetween(q: Query, x: int, y: int)
    requires q.geo.step > 0.0 && XyLen2(q) >= 0.00000001
    ensures var (a, b) := (Shifted(q.start.z, q.geo.centreIdx.z), Shifted(q.end.z, q.geo.centreIdx.z));
            a <= PlaneZ(q, x, y) <= b || b <= PlaneZ(q, x, y) <= a
  {
    var s, e := Index2Coord(q.geo, q.start), Index2Coord(q.geo, q.end);
    var p := Index2Coord(q.geo, Idx(x, y, q.start.z));
    var ratio := Clamp01((Mul(p.x - s.x, e.x - s.x) + Mul(p.y - s.y, e.y - s.y)) / XyLen2(q));
    IndexOfShare(q.geo.step, q.geo.centre.z, q.geo.centreIdx.z, s.z, e.z, ratio);
    hide Mul, AxisIndex, XyLen2;
    AxisRoundTrip(q.geo.step, q.geo.centre.z, q.geo.centreIdx.z, q.start.z);
    AxisRoundTrip(q.geo.step, q.geo.centre.z, q.geo.centreIdx.z, q.end.z);
  }

  /** And over the start column at the start. */
  lemma PlaneAtStart(q: Query)
    requires q.geo.step > 0.0 && XyLen2(q) >= 0.00000001
    ensures PlaneZ(q, q.start.x, q.start.y) == Shifted(q.start.z, q.geo.centreIdx.z)
  {
    var s, e := Index2Coord(q.geo, q.start), Index2Coord(q.geo, q.end);
    assert Mul(0.0, e.x - s.x) == Mul(0.0, e.y - s.y) == Mul(0.0, e.z - s.z) == 0.0;
    assert 0.0 / XyLen2(q) == 0.0;
    hide Mul, AxisIndex, XyLen2;
    AxisRoundTrip(q.geo.step, q.geo.centre.z, q.geo.centreIdx.z, q.start.z);
  }

  /** One move of the search: to a column next to this one, onto the plane, tested free for its own heading. */
  predicate Edge(q: Query, a: Idx, b: Idx)
    requires q.geo.step > 0.0
  {
    && -1 <= b.x - a.x <= 1 && -1 <= b.y - a.y <= 1 && !(b.x == a.x && b.y == a.y)
    && b.z == PlaneZ(q, b.x, b.y)
    && Interior(q.size, b)
    && q.free(b, b.x - a.x, b.y - a.y)
  }

  function StepCost(q: Query, a: Idx, b: Idx): real {
    var dx, dy, dz := b.x - a.x, b.y - a.y, b.z - a.z;
    q.root(dx * dx + dy * dy + dz * dz)
  }

  function PathCost(q: Query, cells: seq<Idx>): real
    decreases |cells|
  {
    if |cells| <= 1 then 0.0
    else PathCost(q, cells[..|cells| - 1]) + StepCost(q, cells[|cells| - 2], cells[|cells| - 1])
  }

  predicate Distinct<T(==)>(s: seq<T>) { forall i, j | 0 <= i < j < |s| :: s[i] != s[j] }

  /** What a successful search hands out. */
  ghost predicate GoodPath(q: Query, cells: seq<Idx>)
    requires q.geo.step > 0.0
  {
    && |cells| > 0 && cells[0] == q.start && cells[|cells| - 1] == q.end
    && (forall i | 0 < i < |cells| :: Edge(q, cells[i - 1], cells[i]))
    && Distinct(cells)
  }

  /** The scores along a path add up to its cost. */
  lemma {:induction false} ScoresAddUp(q: Query, cells: seq<Idx>, scores: seq<real>)
    requires |cells| == |scores| > 0 && scores[0] == 0.0
    requires forall i | 0 < i < |cells| :: scores[i] == scores[i - 1] + StepCost(q, cells[i - 1], cells[i])
    ensures PathCost(q, cells) == scores[|scores| - 1]
    decreases |cells|
  {
    hide StepCost;
    if |cells| > 1 {
      ScoresAddUp(q, cells[..|cells| - 1], scores[..|cells| - 1]);
    }
  }

  /**
   A path between different cells ends on the plane, so its end is not below the centre, unless the ends lie
   so close in the plane that the search stays at the start height.
   */
  lemma EndNotBelowCentre(q: Query, cells: seq<Idx>)
    requires q.geo.step > 0.0 && GoodPath(q, cells) && q.start != q.end
    ensures q.end.z >= q.geo.centreIdx.z || (XyLen2(q) < 0.00000001 && q.end.z == q.start.z)
  {
    var n := |cells| - 1;
    assert Edge(q, cells[n - 1], cells[n]);
    if XyLen2(q) >= 0.00000001 {
      PlaneAtEnd(q);
    }
  }

  // ---------- what a search that gives up has looked at ----------

  predicate Heading(dx: int, dy: int) { -1 <= dx <= 1 && -1 <= dy <= 1 && !(dx == 0 && dy == 0) }

  function Target(q: Query, from: Idx, dx: int, dy: int): Idx
    requires q.geo.step > 0.0
  {
    Idx(from.x + dx, from.y + dy, PlaneZ(q, from.x + dx, from.y + dy))
  }

  /** Some probe of the cell, from an expanded neighbour, found it blocked for its heading. */
  ghost predicate FoundBlocked(q: Query, tested: set<(Idx, int, int)>, c: Idx)
    requires q.geo.step > 0.0
  {
    exists t :: t in tested && Target(q, t.0, t.1, t.2) == c && !q.free(c, t.1, t.2)
  }

  /** The probes are those of the expanded cells, each in all eight headings. */
  ghost predicate ProbesOf(expanded: seq<Idx>, tested: set<(Idx, int, int)>) {
    forall c, dx, dy :: (c, dx, dy) in tested <==> c in expanded && Heading(dx, dy)
  }

  /**
   The search has run dry: the start was expanded, the end was not, and every cell inside the pool next to an
   expanded one was expanded itself or was found blocked for some heading.
   */
  ghost predicate Exhausted(q: Query, expanded: seq<Idx>, tested: set<(Idx, int, int)>)
    requires q.geo.step > 0.0
  {
    && q.start in expanded && q.end !in expanded && ProbesOf(expanded, tested)
    && forall t | t in tested && Interior(q.size, Target(q, t.0, t.1, t.2)) ::
         Target(q, t.0, t.1, t.2) in expanded || FoundBlocked(q, tested, Target(q, t.0, t.1, t.2))
  }

  /** Occupancy that does not depend on the heading. */
  ghost predicate SameForAllHeadings(q: Query) {
    forall c, dx, dy, ex, ey | Heading(dx, dy) && Heading(ex, ey) :: q.free(c, dx, dy) == q.free(c, ex, ey)
  }

  lemma {:induction false} PathStaysExpanded(q: Query, expanded: seq<Idx>, tested: set<(Idx, int, int)>,
                                             cells: seq<Idx>, i: nat)
    requires q.geo.step > 0.0 && Exhausted(q, expanded, tested) && SameForAllHeadings(q)
    requires i < |cells| && cells[0] == q.start && forall k | 0 < k < |cells| :: Edge(q, cells[k - 1], cells[k])
    ensures cells[i] in expanded
    decreases i
  {
    hide PlaneZ;
    if i > 0 {
      PathStaysExpanded(q, expanded, tested, cells, i - 1);
      var a, b := cells[i - 1], cells[i];
      var dx, dy := b.x - a.x, b.y - a.y;
      assert Edge(q, a, b) && Heading(dx, dy);
      assert (a, dx, dy) in tested && Target(q, a, dx, dy) == b;
      FreeIsNotBlocked(q, expanded, tested, b, dx, dy);
    }
  }

  lemma MoreProbes(q: Query, tested: set<(Idx, int, int)>, t: (Idx, int, int), c: Idx)
    requires q.geo.step > 0.0
    ensures FoundBlocked(q, tested, c) ==> FoundBlocked(q, tested + {t}, c)
    ensures Target(q, t.0, t.1, t.2) == c && !q.free(c, t.1, t.2) ==> FoundBlocked(q, tested + {t}, c)
  {
    if u :| u in tested && Target(q, u.0, u.1, u.2) == c && !q.free(c, u.1, u.2) {
      assert u in tested + {t};
    }
    assert t in tested + {t};
  }

  lemma FreeIsNotBlocked(q: Query, expanded: seq<Idx>, tested: set<(Idx, int, int)>, c: Idx, dx: int, dy: int)
    requires q.geo.step > 0.0 && ProbesOf(expanded, tested) && SameForAllHeadings(q) && Heading(dx, dy)
             && q.free(c, dx, dy)
    ensures !FoundBlocked(q, tested, c)
  {
    hide PlaneZ;
    forall t | t in tested
      ensures q.free(c, t.1, t.2)
    {
      assert t == (t.0, t.1, t.2);
      assert Heading(t.1, t.2);
    }
  }

  /** Where occupancy does not depend on the heading, a search that runs dry has missed no path. */
  lemma NoPathMissed(q: Query, expanded: seq<Idx>, tested: set<(Idx, int, int)>, cells: seq<Idx>)
    requires q.geo.step > 0.0 && Exhausted(q, expanded, tested) && SameForAllHeadings(q)
    ensures !GoodPath(q, cells)
  {
    if GoodPath(q, cells) {
      PathStaysExpanded(q, expanded, tested, cells, |cells| - 1);
    }
  }

  // ---------- the nodes ----------

  datatype State = OpenSet | ClosedSet | Undefined

  class GridNode {
    var rounds: int
    var state: State
    var index: Idx
    var gScore: real
    var fScore: real
    var cameFrom: GridNode?

    /** The declared default score is 1 >> 20, which is zero. */
    constructor ()
      ensures rounds == 0 && state == Undefined && cameFrom == null
    {
      rounds, state, gScore, fScore, cameFrom := 0, Undefined, 0.0, 0.0, null;
    }
  }

  /** The indices of a node list, last node first. */
  ghost function Cells(path: seq<GridNode>): (r: seq<Idx>)
    reads path
    ensures |r| == |path| && forall i | 0 <= i < |r| :: r[i] == path[|path| - 1 - i].index
  {
    if path == [] then [] else Cells(path[1..]) + [path[0].index]
  }

  ghost function Scores(path: seq<GridNode>): (r: seq<real>)
    reads path
    ensures |r| == |path| && forall i | 0 <= i < |r| :: r[i] == path[|path| - 1 - i].gScore
  {
    if path == [] then [] else Scores(path[1..]) + [path[0].gScore]
  }

  ghost predicate NewNodes(made: map<Idx, GridNode>)
    reads made.Values
  {
    && (forall i, j | i in made && j in made && made[i] == made[j] :: i == j)
    && (forall i | i in made :: made[i].rounds == 0)
  }

  method WithNode(made: map<Idx, GridNode>, cell: Idx) returns (made': map<Idx, GridNode>)
    requires NewNodes(made)
    ensures made'.Keys == made.Keys + {cell} && NewNodes(made')
    ensures fresh(made'[cell]) && forall c | c in made && c != cell :: made'[c] == made[c]
  {
    var node := new GridNode();
    made' := made[cell := node];
  }

  /** A node just written to, and whether it was queued. */
  datatype Touch = Touch(q: Query, popped: seq<GridNode>, node: GridNode, pushed: bool)

  /** One probe of the node being expanded, with what was probed before. */
  datatype Probe = Probe(q: Query, popped: seq<GridNode>, tested: set<(Idx, int, int)>, current: GridNode, from: Idx,
                         dx: int, dy: int)

  /** The cells of the pool up to (i, j, k) in the order of the three loops are among those made. */
  ghost predicate FilledBefore(size: Idx, made: set<Idx>, i: int, j: int, k: int) {
    forall c | InPool(size, c) && (c.x < i || (c.x == i && (c.y < j || (c.y == j && c.z < k)))) :: c in made
  }

  lemma NoneFilled(size: Idx)
    ensures FilledBefore(size, {}, 0, 0, 0)
  {
  }

  lemma OneMoreFilled(size: Idx, made: set<Idx>, i: int, j: int, k: int)
    requires FilledBefore(size, made, i, j, k)
    ensures FilledBefore(size, made + {Idx(i, j, k)}, i, j, k + 1)
  {
  }

  lemma ColumnFilled(size: Idx, made: set<Idx>, i: int, j: int)
    requires FilledBefore(size, made, i, j, size.z)
    ensures FilledBefore(size, made, i, j + 1, 0)
  {
  }

  lemma SliceFilled(size: Idx, made: set<Idx>, i: int)
    requires FilledBefore(size, made, i, size.y, 0)
    ensures FilledBefore(size, made, i + 1, 0, 0)
  {
  }

  lemma AllFilled(size: Idx, made: set<Idx>)
    requires FilledBefore(size, made, size.x, 0, 0)
    ensures forall c | InPool(size, c) :: c in made
  {
  }

  /** The headings tried so far from one cell, row by row. */
  ghost predicate TurnedBefore(tested: set<(Idx, int, int)>, tested': set<(Idx, int, int)>, from: Idx,
                               dx: int, dy: int) {
    forall t ::
      t in tested' <==>
      t in tested || (t.0 == from && Heading(t.1, t.2) && (t.1 < dx || (t.1 == dx && t.2 < dy)))
  }

  lemma NoTurns(tested: set<(Idx, int, int)>, from: Idx)
    ensures TurnedBefore(tested, tested, from, -1, -1)
  {
  }

  lemma OneMoreTurn(tested: set<(Idx, int, int)>, tested': set<(Idx, int, int)>, from: Idx, dx: int, dy: int)
    requires TurnedBefore(tested, tested', from, dx, dy) && -1 <= dx <= 1 && -1 <= dy <= 1
    ensures TurnedBefore(tested, if Heading(dx, dy) then tested' + {(from, dx, dy)} else tested', from, dx, dy + 1)
  {
  }

  lemma NextRow(tested: set<(Idx, int, int)>, tested': set<(Idx, int, int)>, from: Idx, dx: int)
    requires TurnedBefore(tested, tested', from, dx, 2)
    ensures TurnedBefore(tested, tested', from, dx + 1, -1)
  {
  }

  lemma AllTurns(tested: set<(Idx, int, int)>, tested': set<(Idx, int, int)>, from: Idx)
    requires TurnedBefore(tested, tested', from, 2, -1)
    ensures forall t :: t in tested' <==> t in tested || (t.0 == from && Heading(t.1, t.2))
  {
  }

  datatype SearchResult = Success | InitErr | SearchErr

  class AStar {
    const size: Idx
    const nodes: map<Idx, GridNode>
    var rounds: int
    var openSet: seq<GridNode>
    var gridPath: seq<GridNode>

    ghost function Pool(): set<GridNode> { nodes.Values }

    /** initGridMap: a fresh node for every cell of the pool. */
    constructor (size: Idx)
      requires 0 <= size.x && 0 <= size.y && 0 <= size.z
      ensures Valid() && this.size == size && rounds == 0 && openSet == [] && gridPath == []
      ensures fresh(Pool())
    {
      var made: map<Idx, GridNode> := map[];
      hide FilledBefore;
      NoneFilled(size);
      assert made.Keys == {};
      for i := 0 to size.x
        invariant NewNodes(made) && FilledBefore(size, made.Keys, i, 0, 0)
        invariant forall c | c in made :: fresh(made[c])
      {
        for j := 0 to size.y
          invariant NewNodes(made) && FilledBefore(size, made.Keys, i, j, 0)
          invariant forall c | c in made :: fresh(made[c])
        {
          for k := 0 to size.z
            invariant NewNodes(made) && FilledBefore(size, made.Keys, i, j, k)
            invariant forall c | c in made :: fresh(made[c])
          {
            OneMoreFilled(size, made.Keys, i, j, k);
            made := WithNode(made, Idx(i, j, k));
          }
          ColumnFilled(size, made.Keys, i, j);
        }
        SliceFilled(size, made.Keys, i);
      }
      AllFilled(size, made.Keys);
      this.size := size;
      this.nodes := made;
      this.rounds := 0;
      this.openSet := [];
      this.gridPath := [];
    }

    /** One node a cell, none stamped with a later round than the current one. */
    ghost predicate Valid()
      reads this, Pool()
    {
      && (forall i | InPool(size, i) :: i in nodes)
      && (forall i, j | i in nodes && j in nodes && nodes[i] == nodes[j] :: i == j)
      && (forall i | i in nodes :: nodes[i].rounds <= rounds)
    }

    /** A node this round has reached: it sits at its own cell, and a node of `before` led to it. */
    ghost predicate Reached(q: Query, n: GridNode, before: seq<GridNode>)
      requires q.geo.step > 0.0
      reads this`rounds, Pool()
    {
      && n in Pool() && n.rounds == rounds && n.index in nodes && nodes[n.index] == n
      && (n.index == q.start <==> n.cameFrom == null)
      && (n.index == q.start ==> n.gScore == 0.0)
      && (n.cameFrom != null ==>
            && n.cameFrom in before && n.cameFrom in Pool()
            && Edge(q, n.cameFrom.index, n.index)
            && n.gScore == n.cameFrom.gScore + StepCost(q, n.cameFrom.index, n.index))
    }

    /** The k-th popped node, led to by an earlier one. */
    ghost predicate Closed(q: Query, popped: seq<GridNode>, k: nat)
      requires q.geo.step > 0.0 && k < |popped|
      reads this`rounds, Pool()
    {
      Reached(q, popped[k], popped[..k]) && popped[k].state == ClosedSet
    }

    ghost predicate Open(q: Query, popped: seq<GridNode>, n: GridNode)
      requires q.geo.step > 0.0
      reads this`rounds, Pool()
    {
      Reached(q, n, popped) && n.state == OpenSet
    }

    /** Between two pops. */
    ghost predicate Searching(q: Query, popped: seq<GridNode>)
      requires q.geo.step > 0.0
      reads this, Pool()
    {
      && Valid() && q.size == size
      && q.end in nodes && nodes[q.end].index == q.end
      && (forall k: nat | k < |popped| :: Closed(q, popped, k))
      && (forall k | 0 <= k < |openSet| :: Open(q, popped, openSet[k]))
      && Distinct(openSet) && Distinct(popped)
    }

    twostate predicate Same(m: GridNode)
      reads m
    {
      && m.rounds == old(m.rounds) && m.state == old(m.state) && m.index == old(m.index)
      && m.gScore == old(m.gScore) && m.fScore == old(m.fScore) && m.cameFrom == old(m.cameFrom)
    }

    /** Touching one node that is not closed this round, and queueing it only if it is new, keeps the search state. */
    twostate lemma SearchKept(t: Touch)
      requires QueryOk(t.q) && old(Searching(t.q, t.popped)) && rounds == old(rounds)
      requires t.node in Pool() && t.node.index in nodes && nodes[t.node.index] == t.node && t.node.rounds <= rounds
      requires forall m | m in Pool() && m != t.node :: Same(m)
      requires Same(t.node) || t.node !in t.popped
      requires t.pushed ==> openSet == old(openSet) + [t.node] && t.node !in old(openSet) && Open(t.q, t.popped, t.node)
      requires !t.pushed ==>
                 openSet == old(openSet) && (Same(t.node) || t.node !in openSet || Open(t.q, t.popped, t.node))
      ensures Searching(t.q, t.popped)
    {
      var (q, popped, n) := (t.q, t.popped, t.node);
      forall k: nat | k < |popped|
        ensures Closed(q, popped, k)
      {
        assert old(Closed(q, popped, k));
        var p := popped[k];
        assert Same(p);
        assert p.cameFrom != null ==> p.cameFrom in popped && Same(p.cameFrom);
      }
      forall k | 0 <= k < |openSet| && !(openSet[k] == n && !Same(n))
        ensures Open(q, popped, openSet[k])
      {
        var p := openSet[k];
        if k < |old(openSet)| {
          assert old(Open(q, popped, p));
          assert Same(p);
          assert p.cameFrom != null ==> p.cameFrom in popped && Same(p.cameFrom);
        }
      }
      assert nodes[q.end] != n ==> Same(nodes[q.end]);
      assert nodes[q.end] == n ==> n.index == q.end;
      assert forall i | i in nodes && nodes[i] != n :: Same(nodes[i]);
    }

    lemma PoppedAt(q: Query, popped: seq<GridNode>, n: GridNode)
      requires QueryOk(q) && Searching(q, popped) && n in popped
      ensures n in Pool() && n.index in nodes && nodes[n.index] == n && n.rounds == rounds && n.state == ClosedSet
    {
      var k :| 0 <= k < |popped| && popped[k] == n;
      assert Closed(q, popped, k);
    }

    /**
     A stamped node that is closed or waiting this round sits at its own cell; only a popped one was reached closed.
     */
    lemma WhereReached(q: Query, popped: seq<GridNode>, n: GridNode, cell: Idx)
      requires QueryOk(q) && Searching(q, popped) && cell in nodes && n == nodes[cell]
      ensures n in popped ==> n.rounds == rounds && n.state == ClosedSet && n.index == cell
      ensures n in openSet ==> n.rounds == rounds && n.state == OpenSet && n.index == cell
      ensures popped != [] && cell == q.start ==> n in popped
    {
      if n in popped {
        PoppedAt(q, popped, n);
      }
      if n in openSet {
        var k :| 0 <= k < |openSet| && openSet[k] == n;
        assert Open(q, popped, openSet[k]);
      }
      if popped != [] {
        assert Closed(q, popped, 0);
      }
    }

    /** How a free neighbour's entry and the heap change: queued with its score, improved, or left alone. */
    twostate predicate Scored(q: Query, current: GridNode, n: GridNode, cell: Idx, explored: bool)
      reads this, n
    {
      var tentative := old(current.gScore) + StepCost(q, old(current.index), cell);
      var takes := !explored || tentative < old(n.gScore);
      && openSet == (if explored then old(openSet) else old(openSet) + [n])
      && n.state == (if explored then old(n.state) else OpenSet)
      && n.cameFrom == (if takes then current else old(n.cameFrom))
      && n.gScore == (if takes then tentative else old(n.gScore))
      && n.fScore == (if takes then tentative + q.heuristic(cell, q.end) else old(n.fScore))
    }

    /** Queue a node met for the first time this round, or improve the score of one met before. */
    method Relax(q: Query, current: GridNode, neighbour: GridNode, explored: bool, ghost popped: seq<GridNode>)
      requires QueryOk(q) && Searching(q, popped)
      requires current in popped && current in Pool()
      requires neighbour in Pool() && neighbour.index in nodes && nodes[neighbour.index] == neighbour
      requires neighbour !in popped && neighbour.rounds == rounds && (!explored ==> neighbour !in openSet)
      requires Edge(q, current.index, neighbour.index) && neighbour.index != q.start
      modifies this`openSet, neighbour
      ensures Searching(q, popped)
      ensures neighbour.index == old(neighbour.index) && neighbour.rounds == rounds
      ensures Scored(q, current, neighbour, neighbour.index, explored)
    {
      hide Searching, Edge, Closed, StepCost;
      var cell := neighbour.index;
      var tentative := current.gScore + StepCost(q, current.index, cell);
      WhereReached(q, popped, neighbour, cell);
      assert current != neighbour;
      if !explored {
        neighbour.state := OpenSet;
        neighbour.cameFrom := current;
        neighbour.gScore := tentative;
        neighbour.fScore := tentative + q.heuristic(cell, q.end);
        openSet := openSet + [neighbour];
        SearchKept(Touch(q, popped, neighbour, true));
      } else if tentative < neighbour.gScore {
        neighbour.cameFrom := current;
        neighbour.gScore := tentative;
        neighbour.fScore := tentative + q.heuristic(cell, q.end);
        SearchKept(Touch(q, popped, neighbour, false));
      }
    }

    /** Apart from index and stamp. */
    twostate predicate SameEntry(n: GridNode)
      reads n
    {
      n.state == old(n.state) && n.cameFrom == old(n.cameFrom) && n.gScore == old(n.gScore) && n.fScore == old(n.fScore)
    }

    /** Only the target's node and the heap change, as its stamp, its state and the occupancy test say. */
    twostate predicate VisitEffect(q: Query, current: GridNode, dx: int, dy: int)
      requires q.geo.step > 0.0
      reads this, Pool()
    {
      var cell := Target(q, old(current.index), dx, dy);
      if !Heading(dx, dy) || !Interior(size, cell) then
        openSet == old(openSet) && forall m | m in Pool() :: Same(m)
      else
        && cell in nodes && nodes[cell].index == cell && nodes[cell].rounds == rounds
        && (forall m | m in Pool() && m != nodes[cell] :: Same(m))
        && var n := nodes[cell];
           var explored := old(n.rounds) == rounds;
           if (explored && old(n.state) == ClosedSet) || !q.free(cell, dx, dy)
           then openSet == old(openSet) && SameEntry(n)
           else Scored(q, current, n, cell, explored)
    }

    /** A neighbour inside the pool is given its index and, unless it is closed, the stamp of this round. */
    method Meet(q: Query, cell: Idx, ghost popped: seq<GridNode>) returns (neighbour: GridNode, explored: bool)
      requires QueryOk(q) && Searching(q, popped) && popped != [] && Interior(size, cell)
      modifies Pool()
      ensures cell in nodes && neighbour == nodes[cell] && neighbour.index == cell && neighbour.rounds == rounds
      ensures SameEntry(neighbour) && forall m | m in Pool() && m != neighbour :: Same(m)
      ensures explored == (old(neighbour.rounds) == rounds)
      ensures Searching(q, popped)
      ensures !(explored && neighbour.state == ClosedSet) ==>
                neighbour !in popped && cell != q.start && (!explored ==> neighbour !in openSet)
    {
      SearchFacts(q, popped);
      hide Searching, Open, Closed;
      neighbour := nodes[cell];
      WhereReached(q, popped, neighbour, cell);
      neighbour.index := cell;
      explored := neighbour.rounds == rounds;
      if !(explored && neighbour.state == ClosedSet) {
        neighbour.rounds := rounds;
      }
      SearchKept(Touch(q, popped, neighbour, false));
    }

    /** One neighbour of the node being expanded. */
    method Visit(q: Query, current: GridNode, dx: int, dy: int, ghost popped: seq<GridNode>)
      requires QueryOk(q) && Searching(q, popped)
      requires -1 <= dx <= 1 && -1 <= dy <= 1
      requires current in popped
      modifies this`openSet, Pool()
      ensures Searching(q, popped) && VisitEffect(q, current, dx, dy)
    {
      if dx == 0 && dy == 0 {
        return;
      }
      PoppedAt(q, popped, current);
      SearchFacts(q, popped);
      hide Searching, PlaneZ, StepCost;
      var x, y := current.index.x + dx, current.index.y + dy;
      var cell := Idx(x, y, PlaneZ(q, x, y));
      if !Interior(size, cell) {
        return;
      }
      var neighbour, explored := Meet(q, cell, popped);
      if explored && neighbour.state == ClosedSet {
        return;
      }
      if q.free(cell, dx, dy) {
        Relax(q, current, neighbour, explored, popped);
      }
    }

    /** Every probed cell inside the pool is stamped. */
    ghost predicate Stamped(q: Query, tested: set<(Idx, int, int)>)
      requires q.geo.step > 0.0
      reads this`rounds, Pool()
    {
      forall t | t in tested :: StampedCell(Target(q, t.0, t.1, t.2))
    }

    ghost predicate StampedCell(c: Idx)
      reads this`rounds, Pool()
    {
      Interior(size, c) ==> c in nodes && nodes[c].rounds == rounds
    }

    /** Every stamped cell waits, was popped, or was found blocked. */
    ghost predicate Accounted(q: Query, popped: seq<GridNode>, tested: set<(Idx, int, int)>)
      requires q.geo.step > 0.0
      reads this, Pool()
    {
      forall c | c in nodes && nodes[c].rounds == rounds ::
        nodes[c] in openSet || nodes[c] in popped || FoundBlocked(q, tested, c)
    }

    ghost predicate Covered(q: Query, popped: seq<GridNode>, tested: set<(Idx, int, int)>)
      requires q.geo.step > 0.0
      reads this, Pool()
    {
      Stamped(q, tested) && Accounted(q, popped, tested)
    }

    /** What a visit does to the stamps and the heap. */
    twostate lemma VisitStamps(v: Probe)
      requires v.q.geo.step > 0.0 && old(Valid()) && rounds == old(rounds) && old(v.current.index) == v.from
      requires VisitEffect(v.q, v.current, v.dx, v.dy) && Heading(v.dx, v.dy)
      ensures StampedCell(Target(v.q, v.from, v.dx, v.dy))
      ensures forall m | m in old(openSet) :: m in openSet
      ensures forall c | c in nodes && old(nodes[c].rounds) == rounds :: nodes[c].rounds == rounds
      ensures forall c | c in nodes && nodes[c].rounds == rounds && old(nodes[c].rounds) != rounds ::
                c == Target(v.q, v.from, v.dx, v.dy) && (nodes[c] in openSet || !v.q.free(c, v.dx, v.dy))
    {
      hide PlaneZ, StepCost;
      var cell := Target(v.q, v.from, v.dx, v.dy);
      forall c | c in nodes && (c != cell || !Interior(size, cell))
        ensures nodes[c].rounds == old(nodes[c].rounds)
      {
        assert nodes[c] in Pool();
        assert Interior(size, cell) ==> nodes[c] != nodes[cell];
        assert Same(nodes[c]);
      }
    }

    /** One more probe. */
    twostate lemma CoverStep(v: Probe)
      requires v.q.geo.step > 0.0 && old(Valid()) && old(Covered(v.q, v.popped, v.tested)) && rounds == old(rounds)
      requires VisitEffect(v.q, v.current, v.dx, v.dy) && Heading(v.dx, v.dy)
      requires old(v.current.index) == v.from
      ensures Covered(v.q, v.popped, v.tested + {(v.from, v.dx, v.dy)})
    {
      VisitStamps(v);
      hide PlaneZ, VisitEffect, Target;
      var (q, popped, tested) := (v.q, v.popped, v.tested);
      forall c | c in nodes && nodes[c].rounds == rounds
        ensures nodes[c] in openSet || nodes[c] in popped || FoundBlocked(q, tested + {(v.from, v.dx, v.dy)}, c)
      {
        MoreProbes(q, tested, (v.from, v.dx, v.dy), c);
      }
      assert forall t | t in tested :: old(StampedCell(Target(q, t.0, t.1, t.2)));
    }

    /** Start a node's expansion: it moves from the heap to the closed set. */
    lemma PopKept(q: Query, popped: seq<GridNode>, k: nat)
      requires QueryOk(q) && Searching(q, popped) && k < |openSet|
      ensures openSet[k] !in popped && Reached(q, openSet[k], popped)
      ensures Distinct(popped + [openSet[k]])
      ensures openSet[k] in Pool() && |popped| < |Pool()|
    {
      assert Open(q, popped, openSet[k]);
      if openSet[k] in popped {
        PoppedAt(q, popped, openSet[k]);
      }
      var seen := set n | n in popped + [openSet[k]];
      forall n | n in seen
        ensures n in Pool()
      {
        if n in popped { PoppedAt(q, popped, n); }
      }
      DistinctCount(popped + [openSet[k]], Pool());
    }

    /** The heap yields some node; the search ends there or expands it. */
    method PopAny(q: Query, ghost popped: seq<GridNode>, ghost tested: set<(Idx, int, int)>) returns (current: GridNode)
      requires QueryOk(q) && Searching(q, popped) && openSet != [] && Covered(q, popped, tested)
      modifies this`openSet
      ensures current in old(openSet) && Searching(q, popped)
      ensures current !in openSet && current !in popped
      ensures Reached(q, current, popped) && Distinct(popped + [current]) && current in Pool()
      ensures |popped| < |Pool()| && current.state == OpenSet
      ensures |openSet| == |old(openSet)| - 1 && Covered(q, popped + [current], tested)
    {
      hide Reached;
      var k: nat :| k < |openSet|;
      PopKept(q, popped, k);
      assert Open(q, popped, openSet[k]);
      current := openSet[k];
      ghost var was := openSet;
      openSet := openSet[..k] + openSet[k + 1..];
      assert forall j | 0 <= j < |openSet| :: openSet[j] == was[if j < k then j else j + 1];
      StillWaiting(was, k);
      assert openSet == was[..k] + was[k + 1..];
    }

    lemma StillWaiting(was: seq<GridNode>, k: nat)
      requires k < |was|
      ensures forall n | n in was :: n == was[k] || n in was[..k] + was[k + 1..]
    {
      forall n | n in was && n != was[k]
        ensures n in was[..k] + was[k + 1..]
      {
        var j :| 0 <= j < |was| && was[j] == n;
        assert j < k ==> was[..k][j] == n;
        assert j > k ==> was[k + 1..][j - k - 1] == n;
      }
    }

    /** The popped node joins the closed set; its score and parent are final from here on. */
    method Close(q: Query, current: GridNode, ghost popped: seq<GridNode>, ghost tested: set<(Idx, int, int)>)
      requires QueryOk(q) && Searching(q, popped) && Covered(q, popped + [current], tested)
      requires current in Pool() && current !in openSet && current !in popped && Reached(q, current, popped)
      modifies current`state
      ensures Searching(q, popped + [current]) && Covered(q, popped + [current], tested)
      ensures current.state == ClosedSet
    {
      hide PlaneZ, StepCost, Target, FoundBlocked;
      ghost var popped' := popped + [current];
      assert forall k: nat | k < |popped| :: popped'[..k] == popped[..k];
      assert popped'[..|popped|] == popped;
      label before:
      current.state := ClosedSet;
      forall k: nat | k < |popped'|
        ensures Closed(q, popped', k)
      {
        if k < |popped| {
          assert old@before(Closed(q, popped, k));
        }
      }
      forall k | 0 <= k < |openSet|
        ensures Open(q, popped', openSet[k])
      {
        assert old@before(Open(q, popped, openSet[k]));
      }
    }

    /** All eight columns around the popped node. */
    method Expand(q: Query, current: GridNode, ghost popped: seq<GridNode>, ghost tested: set<(Idx, int, int)>)
      returns (ghost tested': set<(Idx, int, int)>)
      requires QueryOk(q) && Searching(q, popped) && Covered(q, popped + [current], tested)
      requires current in Pool() && current !in openSet && current !in popped && Reached(q, current, popped)
      modifies this`openSet, Pool()
      ensures Searching(q, popped + [current]) && Covered(q, popped + [current], tested')
      ensures forall t :: t in tested' <==> t in tested || (t.0 == old(current.index) && Heading(t.1, t.2))
    {
      ghost var from := current.index;
      ghost var popped' := popped + [current];
      Close(q, current, popped, tested);
      hide Searching, Reached, Covered, VisitEffect, PlaneZ, TurnedBefore;
      tested' := tested;
      NoTurns(tested, from);
      for dx := -1 to 2
        invariant Searching(q, popped') && Covered(q, popped', tested')
        invariant current.index == from && TurnedBefore(tested, tested', from, dx, -1)
      {
        for dy := -1 to 2
          invariant Searching(q, popped') && Covered(q, popped', tested')
          invariant current.index == from && TurnedBefore(tested, tested', from, dx, dy)
        {
          OneMoreTurn(tested, tested', from, dx, dy);
          tested' := Turn(q, current, dx, dy, popped', tested');
        }
        NextRow(tested, tested', from, dx);
      }
      AllTurns(tested, tested', from);
    }

    /** One of the nine headings, the middle one being none. */
    method Turn(q: Query, current: GridNode, dx: int, dy: int, ghost popped: seq<GridNode>,
                ghost tested: set<(Idx, int, int)>)
      returns (ghost tested': set<(Idx, int, int)>)
      requires QueryOk(q) && Searching(q, popped) && Covered(q, popped, tested)
      requires current in popped && -1 <= dx <= 1 && -1 <= dy <= 1
      modifies this`openSet, Pool()
      ensures Searching(q, popped) && Covered(q, popped, tested') && current.index == old(current.index)
      ensures tested' == if Heading(dx, dy) then tested + {(old(current.index), dx, dy)} else tested
    {
      ghost var from := current.index;
      hide Searching, Reached, Covered, VisitEffect, PlaneZ;
      PoppedAt(q, popped, current);
      SearchFacts(q, popped);
      label before:
      Visit(q, current, dx, dy, popped);
      PoppedAt(q, popped, current);
      SearchFacts(q, popped);
      if Heading(dx, dy) {
        CoverStep@before(Probe(q, popped, tested, current, from, dx, dy));
        tested' := tested + {(from, dx, dy)};
      } else {
        NothingVisited@before(Probe(q, popped, tested, current, from, dx, dy));
        tested' := tested;
      }
    }

    twostate lemma NothingVisited(v: Probe)
      requires v.q.geo.step > 0.0 && old(Valid()) && old(Covered(v.q, v.popped, v.tested)) && rounds == old(rounds)
      requires VisitEffect(v.q, v.current, v.dx, v.dy) && !Heading(v.dx, v.dy)
      ensures Covered(v.q, v.popped, v.tested)
    {
      hide Target, FoundBlocked;
      forall c | c in nodes
        ensures nodes[c].rounds == old(nodes[c].rounds)
      {
        assert Same(nodes[c]);
      }
      assert forall t | t in v.tested :: old(StampedCell(Target(v.q, t.0, t.1, t.2)));
    }

    /** A chain of parents, from the node it was asked for towards the start. */
    ghost predicate Chain(q: Query, path: seq<GridNode>)
      requires q.geo.step > 0.0
      reads path
    {
      && Distinct(path)
      && (forall i | 0 <= i < |path| :: path[i].index in nodes && nodes[path[i].index] == path[i])
      && (forall i | 0 <= i < |path| - 1 ::
            && path[i].cameFrom == path[i + 1]
            && Edge(q, path[i + 1].index, path[i].index)
            && path[i].gScore == path[i + 1].gScore + StepCost(q, path[i + 1].index, path[i].index))
    }

    /** A chain that reaches the start, read from its far end, is a path whose cost is the first node's score. */
    lemma ChainIsPath(q: Query, path: seq<GridNode>)
      requires q.geo.step > 0.0 && path != [] && Chain(q, path)
      requires path[0].index == q.end
      requires path[|path| - 1].index == q.start && path[|path| - 1].gScore == 0.0
      ensures GoodPath(q, Cells(path)) && PathCost(q, Cells(path)) == path[0].gScore
    {
      ChainDistinct(q, path);
      hide Edge, StepCost, PathCost, Distinct;
      var cells, scores := Cells(path), Scores(path);
      var n := |path|;
      forall i | 0 < i < n
        ensures Edge(q, cells[i - 1], cells[i])
        ensures scores[i] == scores[i - 1] + StepCost(q, cells[i - 1], cells[i])
      {
        var j := n - 1 - i;
        assert path[j].cameFrom == path[j + 1];
      }
      ScoresAddUp(q, cells, scores);
    }

    lemma ChainDistinct(q: Query, path: seq<GridNode>)
      requires q.geo.step > 0.0 && Chain(q, path)
      ensures Distinct(Cells(path))
    {
      hide Edge, StepCost;
      var cells, n := Cells(path), |path|;
      forall i, j | 0 <= i < j < n
        ensures cells[i] != cells[j]
      {
        assert path[n - 1 - j] != path[n - 1 - i];
      }
    }

    /** retrievePath: each parent was popped before its child, so the walk ends, and ends at the start. */
    method RetrievePath(q: Query, node: GridNode, ghost popped: seq<GridNode>) returns (path: seq<GridNode>)
      requires QueryOk(q) && Searching(q, popped)
      requires node !in popped && Reached(q, node, popped)
      ensures path != [] && path[0] == node && Chain(q, path)
      ensures path[|path| - 1].index == q.start && path[|path| - 1].gScore == 0.0
    {
      hide Searching, Reached, Chain, Edge, StepCost;
      var current := node;
      path := [node];
      ghost var before: nat := |popped|;
      assert popped[..before] == popped;
      SearchFacts(q, popped);
      ChainBegins(q, node, popped);
      while current.cameFrom != null
        invariant Searching(q, popped)
        invariant path != [] && path[0] == node && path[|path| - 1] == current && Chain(q, path)
        invariant before <= |popped| && Reached(q, current, popped[..before])
        invariant forall n | n in path :: n !in popped[..before]
        decreases before
      {
        ghost var k := ParentBefore(q, popped, current, before);
        ChainExtended(q, path, popped, before, k);
        current := current.cameFrom;
        path := path + [current];
        before := k;
      }
      NoParentIsStart(q, current, popped[..before]);
    }

    lemma ChainBegins(q: Query, node: GridNode, popped: seq<GridNode>)
      requires q.geo.step > 0.0 && Reached(q, node, popped)
      ensures Chain(q, [node])
    {
    }

    lemma NoParentIsStart(q: Query, node: GridNode, before: seq<GridNode>)
      requires q.geo.step > 0.0 && Reached(q, node, before) && node.cameFrom == null
      ensures node.index == q.start && node.gScore == 0.0
    {
    }

    /** The parent of a reached node was popped, at some earlier turn. */
    lemma ParentBefore(q: Query, popped: seq<GridNode>, node: GridNode, before: nat) returns (k: nat)
      requires QueryOk(q) && Searching(q, popped) && before <= |popped|
      requires Reached(q, node, popped[..before]) && node.cameFrom != null
      ensures k < before && popped[k] == node.cameFrom && Reached(q, popped[k], popped[..k])
      ensures popped[k].index in nodes && nodes[popped[k].index] == popped[k]
      ensures Edge(q, node.cameFrom.index, node.index)
      ensures node.gScore == node.cameFrom.gScore + StepCost(q, node.cameFrom.index, node.index)
    {
      assert node.cameFrom in popped[..before];
      k :| 0 <= k < before && popped[k] == node.cameFrom;
      assert Closed(q, popped, k);
    }

    lemma ChainExtended(q: Query, path: seq<GridNode>, popped: seq<GridNode>, before: nat, k: nat)
      requires q.geo.step > 0.0 && path != [] && Chain(q, path) && k < before <= |popped| && Distinct(popped)
      requires forall n | n in path :: n !in popped[..before]
      requires var last := path[|path| - 1];
               && last.cameFrom == popped[k]
               && Edge(q, popped[k].index, last.index)
               && last.gScore == popped[k].gScore + StepCost(q, popped[k].index, last.index)
      requires popped[k].index in nodes && nodes[popped[k].index] == popped[k]
      ensures Chain(q, path + [popped[k]])
      ensures forall n | n in path + [popped[k]] :: n !in popped[..k]
    {
      hide Edge, StepCost;
      assert popped[k] in popped[..before] by { assert popped[..before][k] == popped[k]; }
      assert popped[..k] <= popped[..before];
      assert forall n | n in popped[..k] :: n in popped[..before] && n != popped[k];
    }

    /**
     One search between two located cells. Every stamp is new at the start of the round; each node is popped at
     most once; a success hands out a simple path of tested moves whose cost is the end node's score; a failure
     that is not a time-out means that the search has run dry.
     */
    method AstarSearch(q: Query, located: bool)
      returns (result: SearchResult, timedOut: bool, ghost popped: seq<GridNode>,
               ghost expanded: seq<Idx>, ghost tested: set<(Idx, int, int)>)
      requires Valid() && (located ==> QueryOk(q) && q.size == size)
      modifies this, Pool()
      ensures Valid() && rounds == old(rounds) + 1
      ensures result.InitErr? <==> !located
      ensures Distinct(popped) && forall n | n in popped :: n in Pool()
      ensures result.Success? ==>
                && GoodPath(q, Cells(gridPath))
                && PathCost(q, Cells(gridPath)) == nodes[q.end].gScore
                && (q.start == q.end || q.end.z >= q.geo.centreIdx.z
                    || (XyLen2(q) < 0.00000001 && q.end.z == q.start.z))
      ensures result.SearchErr? && !timedOut ==> Exhausted(q, expanded, tested)
    {
      hide Searching, Reached, Chain, GoodPath, XyLen2, PathCost, Cells, Covered, Exhausted, PlaneZ, ProbesOf;
      rounds := rounds + 1;
      timedOut, popped, expanded, tested := false, [], [], {};
      if !located {
        return InitErr, false, [], [], {};
      }
      Begin(q);
      NothingExpanded();
      while openSet != []
        invariant Searching(q, popped) && rounds == old(rounds) + 1
        invariant Covered(q, popped, tested) && ProbesOf(expanded, tested) && SameNodes(expanded, popped)
        invariant q.end !in expanded && if popped == [] then |openSet| == 1 else q.start in expanded
        decreases |Pool()| - |popped|
      {
        var current := PopAny(q, popped, tested);
        SearchFacts(q, popped);
        if current.index == nodes[q.end].index {
          gridPath := RetrievePath(q, current, popped);
          Finish(q);
          return Success, false, popped + [current], expanded, tested;
        }
        ghost var from := current.index;
        WhereAt(q, current, popped);
        ghost var before := tested;
        tested := Expand(q, current, popped, tested);
        OneMoreExpanded(expanded, popped, before, tested, from, current);
        popped, expanded := popped + [current], expanded + [from];
        StartExpanded(q, popped, expanded);
        if * {
          SearchFacts(q, popped);
          return SearchErr, true, popped, expanded, tested;
        }
      }
      SearchFacts(q, popped);
      RunDry(q, popped, expanded, tested);
      return SearchErr, false, popped, expanded, tested;
    }

    /** The k-th expanded cell is that of the k-th popped node. */
    ghost predicate SameNodes(expanded: seq<Idx>, popped: seq<GridNode>) {
      |expanded| == |popped| && forall k | 0 <= k < |expanded| ::
        expanded[k] in nodes && nodes[expanded[k]] == popped[k]
    }

    lemma NothingExpanded()
      ensures ProbesOf([], {}) && SameNodes([], [])
    {
    }

    lemma WhereAt(q: Query, n: GridNode, before: seq<GridNode>)
      requires q.geo.step > 0.0 && Reached(q, n, before)
      ensures n.index in nodes && nodes[n.index] == n
    {
    }

    lemma OneMoreExpanded(expanded: seq<Idx>, popped: seq<GridNode>, tested: set<(Idx, int, int)>,
                          tested': set<(Idx, int, int)>, from: Idx, current: GridNode)
      requires ProbesOf(expanded, tested) && SameNodes(expanded, popped) && from in nodes && nodes[from] == current
      requires forall t :: t in tested' <==> t in tested || (t.0 == from && Heading(t.1, t.2))
      ensures ProbesOf(expanded + [from], tested') && SameNodes(expanded + [from], popped + [current])
    {
    }

    lemma StartExpanded(q: Query, popped: seq<GridNode>, expanded: seq<Idx>)
      requires QueryOk(q) && Searching(q, popped) && SameNodes(expanded, popped) && popped != []
      ensures q.start in expanded
    {
      var first := popped[0];
      assert Closed(q, popped, 0);
      assert first.index == q.start && nodes[first.index] == first;
      assert nodes[expanded[0]] == first;
    }

    /** With nothing left to pop, every probed cell was expanded or found blocked. */
    lemma RunDry(q: Query, popped: seq<GridNode>, expanded: seq<Idx>, tested: set<(Idx, int, int)>)
      requires QueryOk(q) && Searching(q, popped) && Covered(q, popped, tested) && openSet == []
      requires ProbesOf(expanded, tested) && SameNodes(expanded, popped)
      requires q.start in expanded && q.end !in expanded
      ensures Exhausted(q, expanded, tested)
    {
      hide PlaneZ, FoundBlocked, ProbesOf, Closed, Open;
      forall t | t in tested && Interior(q.size, Target(q, t.0, t.1, t.2))
        ensures Target(q, t.0, t.1, t.2) in expanded || FoundBlocked(q, tested, Target(q, t.0, t.1, t.2))
      {
        var c := Target(q, t.0, t.1, t.2);
        assert StampedCell(c);
        if nodes[c] in popped {
          var k :| 0 <= k < |popped| && popped[k] == nodes[c];
          assert expanded[k] == c;
        }
      }
    }

    lemma SearchFacts(q: Query, popped: seq<GridNode>)
      requires QueryOk(q) && Searching(q, popped)
      ensures Valid() && q.size == size && Distinct(popped) && q.end in nodes && nodes[q.end].index == q.end
      ensures forall n | n in popped :: n in Pool()
    {
      forall n | n in popped
        ensures n in Pool()
      {
        PoppedAt(q, popped, n);
      }
    }

    lemma Finish(q: Query)
      requires q.geo.step > 0.0 && gridPath != [] && Chain(q, gridPath) && gridPath[0].index == q.end
      requires gridPath[|gridPath| - 1].index == q.start && gridPath[|gridPath| - 1].gScore == 0.0
      ensures GoodPath(q, Cells(gridPath)) && PathCost(q, Cells(gridPath)) == nodes[q.end].gScore
      ensures q.start == q.end || q.end.z >= q.geo.centreIdx.z || (XyLen2(q) < 0.00000001 && q.end.z == q.start.z)
    {
      hide GoodPath, XyLen2;
      ChainIsPath(q, gridPath);
      assert nodes[gridPath[0].index] == gridPath[0];
      if q.start != q.end {
        EndNotBelowCentre(q, Cells(gridPath));
      }
    }

    /** The start node alone in the heap. */
    method Begin(q: Query)
      requires QueryOk(q) && q.size == size && Valid() && forall c | c in nodes :: nodes[c].rounds < rounds
      modifies this`openSet, Pool()
      ensures Searching(q, []) && Covered(q, [], {}) && openSet == [nodes[q.start]]
    {
      var startNode, endNode := nodes[q.start], nodes[q.end];
      endNode.index := q.end;
      startNode.index := q.start;
      startNode.rounds := rounds;
      startNode.gScore := 0.0;
      startNode.fScore := q.heuristic(q.start, q.end);
      startNode.state := OpenSet;
      startNode.cameFrom := null;
      openSet := [startNode];
    }

    /** getPath: the coordinates of the last path, from start to end. */
    method GetPath(geo: Geometry) returns (path: seq<Coord>)
      ensures |path| == |gridPath|
      ensures forall i | 0 <= i < |path| :: path[i] == Index2Coord(geo, Cells(gridPath)[i])
    {
      hide Index2Coord;
      path := [];
      for i := 0 to |gridPath|
        invariant |path| == i && forall j | 0 <= j < i :: path[j] == Index2Coord(geo, gridPath[j].index)
      {
        path := path + [Index2Coord(geo, gridPath[i].index)];
      }
      var n := |path|;
      path := seq(n, i requires 0 <= i < n => path[n - 1 - i]);
    }
  }

  lemma {:induction false} DistinctCount(s: seq<GridNode>, all: set<GridNode>)
    requires Distinct(s) && forall n | n in s :: n in all
    ensures |s| <= |all|
    decreases |s|
  {
    if s != [] {
      var n := |s| - 1;
      assert s[n] !in s[..n];
      DistinctCount(s[..n], all - {s[n]});
    }
  }
}
