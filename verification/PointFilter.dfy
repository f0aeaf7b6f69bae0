/**
 The lidar point filter of rslidar_point_filter.hpp: a per-point rejection pass and a neighbour count
 that looks only into the 27 hash cells around a point. Reads are over exact reals.
 */
module PointFilter {
  import opened Vectors

  /** One return; the coordinates of a point that is not finite are never looked at. */
  datatype Point = Point(finite: bool, x: real, y: real, z: real, intensity: real)

  datatype Config = Config(
    enabled: bool, minRange: real,
    intensityOn: bool, minIntensity: real, intensityRange: real,
    selfOn: bool, boxMin: (real, real, real), boxMax: (real, real, real),
    maskOn: bool, masks: seq<(real, real)>,
    radiusOn: bool, applyRange: real, searchRadius: real, minNeighbors: int)

  datatype Stats = Stats(input: nat, afterStage1: nat, output: nat, removed: int)

  function Max(a: real, b: real): real { if a < b then b else a }

  /** The clamping at the end of configure. */
  function Clamped(c: Config): (r: Config)
    ensures r.searchRadius > 0.0 && r.minNeighbors >= 0
    ensures r.minRange >= 0.0 && r.applyRange >= 0.0 && r.intensityRange >= 0.0
  {
    c.(minRange := Max(0.0, c.minRange), minIntensity := Max(0.0, c.minIntensity),
       intensityRange := Max(0.0, c.intensityRange), applyRange := Max(0.0, c.applyRange),
       searchRadius := Max(0.001, c.searchRadius), minNeighbors := if c.minNeighbors < 0 then 0 else c.minNeighbors)
  }

  function SquaredRange(p: Point): real { Mul(p.x, p.x) + Mul(p.y, p.y) + Mul(p.z, p.z) }

  function SquaredDistance(p: Point, q: Point): real {
    Mul(p.x - q.x, p.x - q.x) + Mul(p.y - q.y, p.y - q.y) + Mul(p.z - q.z, p.z - q.z)
  }

  predicate InSelfBox(c: Config, p: Point) {
    && c.boxMin.0 <= p.x <= c.boxMax.0
    && c.boxMin.1 <= p.y <= c.boxMax.1
    && c.boxMin.2 <= p.z <= c.boxMax.2
  }

  /** A range whose first bound exceeds its second wraps through zero degrees. */
  predicate InMask(mask: (real, real), azimuth: real) {
    if mask.0 <= mask.1 then mask.0 <= azimuth <= mask.1 else azimuth >= mask.0 || azimuth <= mask.1
  }

  predicate Masked(c: Config, azimuth: real) {
    exists i | 0 <= i < |c.masks| :: InMask(c.masks[i], azimuth)
  }

  method IsAngleMasked(c: Config, azimuth: real) returns (masked: bool)
    ensures masked <==> Masked(c, azimuth)
  {
    for i := 0 to |c.masks|
      invariant forall j | 0 <= j < i :: !InMask(c.masks[j], azimuth)
    {
      if InMask(c.masks[i], azimuth) {
        return true;
      }
    }
    return false;
  }

  predicate Rejected(c: Config, azimuth: Point -> real, p: Point) {
    || SquaredRange(p) < Mul(c.minRange, c.minRange)
    || (c.intensityOn && SquaredRange(p) < Mul(c.intensityRange, c.intensityRange) && p.intensity < c.minIntensity)
    || (c.selfOn && InSelfBox(c, p))
    || (c.maskOn && Masked(c, azimuth(p)))
  }

  /** Degrees to turn from one direction to the other, upwards. */
  function Turn(from: real, to: real): real { if from <= to then to - from else to - from + 360.0 }

  predicate Degrees(a: real) { 0.0 <= a < 360.0 }

  /** A mask holds the directions met on the turn from its first bound up to its second, across zero or not. */
  lemma MaskIsArc(mask: (real, real), azimuth: real)
    requires Degrees(mask.0) && Degrees(mask.1) && Degrees(azimuth)
    ensures InMask(mask, azimuth) <==> Turn(mask.0, azimuth) <= Turn(mask.0, mask.1)
  {
  }

  predicate Outside(lo: real, v: real, hi: real) { v < lo || hi < v }

  lemma SquaredLess(d: real, r: real)
    requires 0.0 <= d && 0.0 <= r
    ensures Mul(d, d) < Mul(r, r) <==> d < r
  {
    if d < r {
      SquareGrows(d, r);
    } else if r < d {
      SquareGrows(r, d);
    }
  }

  lemma SquareGrows(a: real, b: real)
    requires 0.0 <= a < b
    ensures Mul(a, a) < Mul(b, b)
  {
    ProductPositive(b - a, b + a);
    assert Mul(b - a, b + a) == Mul(b, b) - Mul(a, a);
  }

  /**
   What the first pass lets through: a point at distance d, not nearer than minRange, bright or at least intensityRange
   away, outside the box around the sensor on some axis, and off the turn of every mask.
   */
  lemma AcceptedMeans(c: Config, azimuth: Point -> real, p: Point, d: real)
    requires 0.0 <= c.minRange && 0.0 <= c.intensityRange
    requires Degrees(azimuth(p)) && forall i | 0 <= i < |c.masks| :: Degrees(c.masks[i].0) && Degrees(c.masks[i].1)
    requires 0.0 <= d && Mul(d, d) == SquaredRange(p)
    ensures !Rejected(c, azimuth, p) <==>
              && c.minRange <= d
              && (c.intensityOn ==> c.intensityRange <= d || c.minIntensity <= p.intensity)
              && (c.selfOn ==>
                    || Outside(c.boxMin.0, p.x, c.boxMax.0) || Outside(c.boxMin.1, p.y, c.boxMax.1)
                    || Outside(c.boxMin.2, p.z, c.boxMax.2))
              && (c.maskOn ==>
                    forall i | 0 <= i < |c.masks| ::
                      Turn(c.masks[i].0, azimuth(p)) > Turn(c.masks[i].0, c.masks[i].1))
  {
    SquaredLess(d, c.minRange);
    SquaredLess(d, c.intensityRange);
    forall i | 0 <= i < |c.masks|
      ensures InMask(c.masks[i], azimuth(p)) <==> Turn(c.masks[i].0, azimuth(p)) <= Turn(c.masks[i].0, c.masks[i].1)
    {
      MaskIsArc(c.masks[i], azimuth(p));
    }
    hide Mul, SquaredRange, InMask, Turn;
  }

  // ---------- order-preserving selection ----------

  /** The elements whose flag is set, in order. */
  function Pick<T>(s: seq<T>, flags: seq<bool>): (r: seq<T>)
    requires |s| == |flags|
    decreases |s|
  {
    if s == [] then []
    else Pick(s[..|s| - 1], flags[..|s| - 1]) + (if flags[|s| - 1] then [s[|s| - 1]] else [])
  }

  function Indices(n: nat): (r: seq<nat>)
    ensures |r| == n && forall i | 0 <= i < n :: r[i] == i
  {
    seq(n, i => i)
  }

  function Opposite(flags: seq<bool>): (r: seq<bool>)
    ensures |r| == |flags| && forall i | 0 <= i < |r| :: r[i] == !flags[i]
  {
    seq(|flags|, i requires 0 <= i < |flags| => !flags[i])
  }

  lemma PickNext<T>(s: seq<T>, flags: seq<bool>, i: nat)
    requires |s| == |flags| && i < |s|
    ensures Pick(s[..i + 1], flags[..i + 1]) == Pick(s[..i], flags[..i]) + (if flags[i] then [s[i]] else [])
  {
    assert s[..i + 1][..i] == s[..i];
    assert flags[..i + 1][..i] == flags[..i];
  }

  lemma PickAll<T>(s: seq<T>, flags: seq<bool>)
    requires |s| == |flags|
    ensures s[..|s|] == s && flags[..|s|] == flags
  {
  }

  /** What is picked, read through positions: a strictly increasing list of exactly the flagged positions. */
  lemma {:induction false} PickKeepsOrder<T>(s: seq<T>, flags: seq<bool>)
    requires |s| == |flags|
    ensures var at := Pick<nat>(Indices(|s|), flags);
            && |at| == |Pick(s, flags)|
            && (forall i | 0 <= i < |at| :: at[i] < |s| && flags[at[i]] && Pick(s, flags)[i] == s[at[i]])
            && (forall i, j | 0 <= i < j < |at| :: at[i] < at[j])
            && (forall k | 0 <= k < |s| && flags[k] :: k in at)
    decreases |s|
  {
    if s != [] {
      var n := |s| - 1;
      PickKeepsOrder(s[..n], flags[..n]);
      assert Indices(|s|)[..n] == Indices(n);
      var at', at := Pick<nat>(Indices(n), flags[..n]), Pick<nat>(Indices(|s|), flags);
      assert at == at' + (if flags[n] then [n] else []);
      forall k | 0 <= k < |s| && flags[k]
        ensures k in at
      {
        if k < n {
          assert flags[..n][k];
        }
      }
    }
  }

  /** Where every flagged position of `all` is flagged in exactly one part, nothing is lost or duplicated. */
  lemma {:induction false} PickSplits<T>(s: seq<T>, a: seq<bool>, b: seq<bool>, all: seq<bool>)
    requires |s| == |a| == |b| == |all|
    requires forall i | 0 <= i < |s| :: all[i] == (a[i] || b[i]) && !(a[i] && b[i])
    ensures multiset(Pick(s, a)) + multiset(Pick(s, b)) == multiset(Pick(s, all))
    decreases |s|
  {
    if s != [] {
      var n := |s| - 1;
      PickSplits(s[..n], a[..n], b[..n], all[..n]);
      var last := [s[n]];
      assert a[n] ==> Pick(s, a) == Pick(s[..n], a[..n]) + last;
    }
  }

  lemma {:induction false} PickEverything<T>(s: seq<T>, flags: seq<bool>)
    requires |s| == |flags| && forall i | 0 <= i < |s| :: flags[i]
    ensures Pick(s, flags) == s
    decreases |s|
  {
    if s != [] {
      PickEverything(s[..|s| - 1], flags[..|s| - 1]);
    }
  }

  lemma PickPartitions<T>(s: seq<T>, flags: seq<bool>)
    requires |s| == |flags|
    ensures multiset(Pick(s, flags)) + multiset(Pick(s, Opposite(flags))) == multiset(s)
  {
    var all := seq(|s|, i => true);
    PickSplits(s, flags, Opposite(flags), all);
    PickEverything(s, all);
  }

  // ---------- what the filter should keep ----------

  function FiniteFlags(input: seq<Point>): (r: seq<bool>)
    ensures |r| == |input| && forall i | 0 <= i < |r| :: r[i] == input[i].finite
  {
    seq(|input|, i requires 0 <= i < |input| => input[i].finite)
  }

  function AcceptFlags(c: Config, azimuth: Point -> real, input: seq<Point>): (r: seq<bool>)
    ensures |r| == |input|
    ensures forall i | 0 <= i < |r| :: r[i] == (input[i].finite && !Rejected(c, azimuth, input[i]))
  {
    seq(|input|, i requires 0 <= i < |input| => input[i].finite && !Rejected(c, azimuth, input[i]))
  }

  function RejectFlags(c: Config, azimuth: Point -> real, input: seq<Point>): (r: seq<bool>)
    ensures |r| == |input|
    ensures forall i | 0 <= i < |r| :: r[i] == (input[i].finite && Rejected(c, azimuth, input[i]))
  {
    seq(|input|, i requires 0 <= i < |input| => input[i].finite && Rejected(c, azimuth, input[i]))
  }

  function Stage1(c: Config, azimuth: Point -> real, input: seq<Point>): seq<Point> {
    Pick(input, AcceptFlags(c, azimuth, input))
  }

  predicate Close(c: Config, s: seq<Point>, i: nat, j: nat)
    requires i < |s| && j < |s|
  {
    SquaredDistance(s[i], s[j]) <= Mul(c.searchRadius, c.searchRadius)
  }

  /** Brute force: every other stage-1 point within the search radius. */
  function Neighbours(c: Config, s: seq<Point>, i: nat): set<nat>
    requires i < |s|
  {
    set j: nat | j < |s| && j != i && Close(c, s, i, j)
  }

  predicate Survives(c: Config, s: seq<Point>, i: nat)
    requires i < |s|
  {
    || !c.radiusOn || c.minNeighbors <= 0
    || SquaredRange(s[i]) > Mul(c.applyRange, c.applyRange)
    || |Neighbours(c, s, i)| >= c.minNeighbors
  }

  function SurviveFlags(c: Config, s: seq<Point>): (r: seq<bool>)
    ensures |r| == |s| && forall i | 0 <= i < |r| :: r[i] == Survives(c, s, i)
  {
    seq(|s|, i requires 0 <= i < |s| => Survives(c, s, i))
  }

  // ---------- the hash grid ----------

  datatype Key = Key(x: int, y: int, z: int)

  function CellFor(c: Config, p: Point): Key
    requires c.searchRadius > 0.0
  {
    Key((p.x / c.searchRadius).Floor, (p.y / c.searchRadius).Floor, (p.z / c.searchRadius).Floor)
  }

  lemma SquareOrder(d: real, r: real)
    requires 0.0 < r < d
    ensures Mul(d, d) > Mul(r, r) && Mul(-d, -d) == Mul(d, d)
  {
    assert (d - r) * (d + r) > 0.0;
  }

  lemma SquareBound(d: real, rest: real, r: real)
    requires r > 0.0 && rest >= 0.0 && Mul(d, d) + rest <= Mul(r, r)
    ensures -r <= d <= r
  {
    hide Mul;
    if d > r {
      SquareOrder(d, r);
    } else if d < -r {
      SquareOrder(-d, r);
    }
  }

  lemma QuotientGap(a: real, b: real, r: real)
    requires r > 0.0 && a - b <= r
    ensures a / r - b / r <= 1.0
  {
    var p, q := a / r, b / r;
    assert p * r == a && q * r == b;
    assert (p - q) * r == a - b;
  }

  lemma AdjacentOnAxis(a: real, b: real, r: real)
    requires r > 0.0 && -r <= a - b <= r
    ensures -1 <= (b / r).Floor - (a / r).Floor <= 1
  {
    QuotientGap(a, b, r);
    QuotientGap(b, a, r);
  }

  predicate Adjacent(centre: Key, k: Key) {
    -1 <= k.x - centre.x <= 1 && -1 <= k.y - centre.y <= 1 && -1 <= k.z - centre.z <= 1
  }

  /** Points within the search radius lie in the same or an adjacent cell, also across negative coordinates. */
  lemma CloseIsAdjacent(c: Config, s: seq<Point>, i: nat, j: nat)
    requires c.searchRadius > 0.0 && i < |s| && j < |s| && Close(c, s, i, j)
    ensures Adjacent(CellFor(c, s[i]), CellFor(c, s[j]))
  {
    var p, q, r := s[i], s[j], c.searchRadius;
    var dx, dy, dz := p.x - q.x, p.y - q.y, p.z - q.z;
    SquareIsNonNegative(dx);
    SquareIsNonNegative(dy);
    SquareIsNonNegative(dz);
    hide Mul;
    SquareBound(dx, Mul(dy, dy) + Mul(dz, dz), r);
    SquareBound(dy, Mul(dx, dx) + Mul(dz, dz), r);
    SquareBound(dz, Mul(dx, dx) + Mul(dy, dy), r);
    AdjacentOnAxis(p.x, q.x, r);
    AdjacentOnAxis(p.y, q.y, r);
    AdjacentOnAxis(p.z, q.z, r);
  }

  lemma SquareIsNonNegative(d: real)
    ensures Mul(d, d) >= 0.0
  {
  }

  type Grid = map<Key, seq<nat>>

  predicate Distinct(s: seq<nat>) { forall a, b | 0 <= a < b < |s| :: s[a] != s[b] }

  /** The grid lists each of the first n points once, under its own cell. */
  predicate Indexes(c: Config, g: Grid, s: seq<Point>, n: nat)
    requires c.searchRadius > 0.0 && n <= |s|
  {
    && (forall k <- g :: Distinct(g[k]) && forall j <- g[k] :: j < n && CellFor(c, s[j]) == k)
    && (forall j: nat | j < n :: CellFor(c, s[j]) in g && j in g[CellFor(c, s[j])])
  }

  method BuildGrid(c: Config, s: seq<Point>) returns (g: Grid)
    requires c.searchRadius > 0.0
    ensures Indexes(c, g, s, |s|)
  {
    hide CellFor;
    g := map[];
    for i := 0 to |s|
      invariant Indexes(c, g, s, i)
    {
      var k := CellFor(c, s[i]);
      var bucket := if k in g then g[k] else [];
      assert i !in bucket;
      g := g[k := bucket + [i]];
    }
  }

  /** The points within the radius of point i that lie in cell k. */
  function CloseIn(c: Config, s: seq<Point>, i: nat, k: Key): set<nat>
    requires c.searchRadius > 0.0 && i < |s|
  {
    set j: nat | j < |s| && CellFor(c, s[j]) == k && Close(c, s, i, j)
  }

  /** Cell k has its turn before offset (dx, dy, dz) in the triple loop around the centre. */
  predicate Before(centre: Key, k: Key, dx: int, dy: int, dz: int) {
    var ox, oy, oz := k.x - centre.x, k.y - centre.y, k.z - centre.z;
    Adjacent(centre, k) && (ox < dx || (ox == dx && (oy < dy || (oy == dy && oz < dz))))
  }

  function CloseBefore(c: Config, s: seq<Point>, i: nat, dx: int, dy: int, dz: int): set<nat>
    requires c.searchRadius > 0.0 && i < |s|
  {
    set j: nat | j < |s| && Before(CellFor(c, s[i]), CellFor(c, s[j]), dx, dy, dz) && Close(c, s, i, j)
  }

  function At(centre: Key, dx: int, dy: int, dz: int): Key { Key(centre.x + dx, centre.y + dy, centre.z + dz) }

  lemma NextCell(c: Config, s: seq<Point>, i: nat, dx: int, dy: int, dz: int)
    requires c.searchRadius > 0.0 && i < |s| && -1 <= dx <= 1 && -1 <= dy <= 1 && -1 <= dz <= 1
    ensures var k := At(CellFor(c, s[i]), dx, dy, dz);
            && CloseBefore(c, s, i, dx, dy, dz) !! CloseIn(c, s, i, k)
            && CloseBefore(c, s, i, dx, dy, dz + 1) == CloseBefore(c, s, i, dx, dy, dz) + CloseIn(c, s, i, k)
  {
    hide CellFor, Close;
  }

  lemma NextRow(c: Config, s: seq<Point>, i: nat, dx: int, dy: int)
    requires c.searchRadius > 0.0 && i < |s|
    ensures CloseBefore(c, s, i, dx, dy, 2) == CloseBefore(c, s, i, dx, dy + 1, -1)
    ensures CloseBefore(c, s, i, dx, 2, -1) == CloseBefore(c, s, i, dx + 1, -1, -1)
    ensures CloseBefore(c, s, i, -1, -1, -1) == {}
  {
    hide CellFor, Close;
  }

  /** All 27 cells together hold every point within the radius, the point itself included. */
  lemma AllCells(c: Config, s: seq<Point>, i: nat)
    requires c.searchRadius > 0.0 && i < |s|
    ensures CloseBefore(c, s, i, 2, -1, -1) == Neighbours(c, s, i) + {i}
    ensures |CloseBefore(c, s, i, 2, -1, -1)| == |Neighbours(c, s, i)| + 1
  {
    SelfIsClose(c, s, i);
    forall j: nat | j < |s| && Close(c, s, i, j)
      ensures Adjacent(CellFor(c, s[i]), CellFor(c, s[j]))
    {
      CloseIsAdjacent(c, s, i, j);
    }
    hide CellFor, Close;
    var all := CloseBefore(c, s, i, 2, -1, -1);
    assert forall j | j in all :: j in Neighbours(c, s, i) + {i};
    assert forall j | j in Neighbours(c, s, i) + {i} :: j in all;
    assert all == Neighbours(c, s, i) + {i};
  }

  lemma SelfIsClose(c: Config, s: seq<Point>, i: nat)
    requires c.searchRadius > 0.0 && i < |s|
    ensures Close(c, s, i, i)
  {
    assert c.searchRadius * c.searchRadius > 0.0;
  }

  lemma Subset(a: set<nat>, b: set<nat>)
    requires a <= b
    ensures |a| <= |b|
  {
    if a != b {
      assert b == a + (b - a);
    }
  }

  /** The listed points that lie within the radius. */
  function CloseOf(c: Config, s: seq<Point>, i: nat, listed: seq<nat>): set<nat>
    requires i < |s|
  {
    set j | j in listed && j < |s| && Close(c, s, i, j)
  }

  lemma CloseOfNext(c: Config, s: seq<Point>, i: nat, listed: seq<nat>, m: nat)
    requires i < |s| && m < |listed| && Distinct(listed) && listed[m] < |s|
    ensures listed[m] !in CloseOf(c, s, i, listed[..m])
    ensures Close(c, s, i, listed[m])
        ==> CloseOf(c, s, i, listed[..m + 1]) == CloseOf(c, s, i, listed[..m]) + {listed[m]}
    ensures !Close(c, s, i, listed[m]) ==> CloseOf(c, s, i, listed[..m + 1]) == CloseOf(c, s, i, listed[..m])
    ensures CloseOf(c, s, i, listed[..m + 1]) <= CloseOf(c, s, i, listed)
  {
    hide Close;
    assert listed[..m + 1] == listed[..m] + [listed[m]];
  }

  lemma BucketIsCell(c: Config, s: seq<Point>, g: Grid, i: nat, k: Key)
    requires c.searchRadius > 0.0 && i < |s| && Indexes(c, g, s, |s|)
    ensures CloseIn(c, s, i, k) == if k in g then CloseOf(c, s, i, g[k]) else {}
    ensures k in g ==> Distinct(g[k]) && forall j <- g[k] :: j < |s|
  {
    hide CellFor, Close;
  }

  /** One bucket: stop as soon as the required number is reached. */
  method ScanBucket(c: Config, s: seq<Point>, i: nat, bucket: seq<nat>, required: nat, count: nat,
                    ghost found: set<nat>)
    returns (count': nat, enough: bool, ghost found': set<nat>)
    requires i < |s| && Distinct(bucket) && forall j <- bucket :: j < |s|
    requires count == |found| < required && found !! CloseOf(c, s, i, bucket)
    ensures count' == |found'| && found <= found' <= found + CloseOf(c, s, i, bucket)
    ensures enough <==> count' >= required
    ensures !enough ==> found' == found + CloseOf(c, s, i, bucket)
  {
    hide Close, CloseOf, SquaredDistance, Mul, Distinct;
    count', enough := count, false;
    ghost var whole, part := CloseOf(c, s, i, bucket), {};
    EmptyPart(c, s, i, bucket);
    assert found + part == found;
    for m := 0 to |bucket|
      invariant count' == |found + part| < required
      invariant part == CloseOf(c, s, i, bucket[..m]) && part <= whole
    {
      var j := bucket[m];
      assert j in bucket;
      CloseMeans(c, s, i, j);
      CloseOfNext(c, s, i, bucket, m);
      if SquaredDistance(s[i], s[j]) <= Mul(c.searchRadius, c.searchRadius) {
        AddOne(found, part, whole, j);
        part := part + {j};
        count' := count' + 1;
        if count' >= required {
          return count', true, found + part;
        }
      }
    }
    return count', false, found + part;
  }

  lemma EmptyPart(c: Config, s: seq<Point>, i: nat, bucket: seq<nat>)
    requires i < |s|
    ensures CloseOf(c, s, i, bucket[..0]) == {} && bucket[..|bucket|] == bucket
  {
  }

  lemma AddOne(found: set<nat>, part: set<nat>, whole: set<nat>, j: nat)
    requires found !! whole && part <= whole && j !in part && part + {j} <= whole
    ensures |found + (part + {j})| == |found + part| + 1
    ensures found + (part + {j}) <= found + whole
  {
    assert found + (part + {j}) == (found + part) + {j};
  }

  lemma CloseMeans(c: Config, s: seq<Point>, i: nat, j: nat)
    requires i < |s| && j < |s|
    ensures Close(c, s, i, j) <==> SquaredDistance(s[i], s[j]) <= Mul(c.searchRadius, c.searchRadius)
  {
  }

  /** The triple loop over the 27 cells, left as soon as enough points were seen. */
  method HasEnough(c: Config, s: seq<Point>, g: Grid, i: nat, required: nat) returns (enough: bool)
    requires c.searchRadius > 0.0 && i < |s| && Indexes(c, g, s, |s|) && required > 0
    ensures enough <==> |Neighbours(c, s, i)| + 1 >= required
  {
    hide CellFor, Close, CloseIn, CloseOf, CloseBefore, Indexes, Neighbours, Distinct, At;
    var centre := CellFor(c, s[i]);
    var count := 0;
    ghost var found: set<nat> := {};
    enough := false;
    NextRow(c, s, i, -1, -1);
    var dx := -1;
    while dx <= 1 && !enough
      invariant -1 <= dx <= 2
      invariant Progress(c, s, i, required, count, enough, found, dx, -1, -1)
    {
      var dy := -1;
      while dy <= 1 && !enough
        invariant -1 <= dy <= 2
        invariant Progress(c, s, i, required, count, enough, found, dx, dy, -1)
      {
        var dz := -1;
        while dz <= 1 && !enough
          invariant -1 <= dz <= 2
          invariant Progress(c, s, i, required, count, enough, found, dx, dy, dz)
        {
          var cell := At(centre, dx, dy, dz);
          NextCell(c, s, i, dx, dy, dz);
          BucketIsCell(c, s, g, i, cell);
          StillClose(c, s, i, dx, dy, dz, cell);
          if cell in g {
            count, enough, found := ScanBucket(c, s, i, g[cell], required, count, found);
          }
          dz := dz + 1;
        }
        NextRow(c, s, i, dx, dy);
        dy := dy + 1;
      }
      NextRow(c, s, i, dx, 1);
      dx := dx + 1;
    }
    AllCells(c, s, i);
    if enough {
      Subset(found, Neighbours(c, s, i) + {i});
    }
  }

  /** What the triple loop knows when offset (dx, dy, dz) is next. */
  ghost predicate Progress(c: Config, s: seq<Point>, i: nat, required: nat, count: nat, enough: bool, found: set<nat>,
                           dx: int, dy: int, dz: int)
    requires c.searchRadius > 0.0 && i < |s|
  {
    && count == |found|
    && (enough <==> count >= required)
    && found <= Neighbours(c, s, i) + {i}
    && (!enough ==> found == CloseBefore(c, s, i, dx, dy, dz))
  }

  lemma StillClose(c: Config, s: seq<Point>, i: nat, dx: int, dy: int, dz: int, k: Key)
    requires c.searchRadius > 0.0 && i < |s|
    ensures CloseIn(c, s, i, k) <= Neighbours(c, s, i) + {i}
  {
  }

  // ---------- the passes ----------

  /** First pass: drop what is not finite, set aside what a per-point test rejects. */
  method SplitStage1(c: Config, azimuth: Point -> real, input: seq<Point>, wantRemoved: bool)
    returns (stage1: seq<Point>, rejected: seq<Point>)
    ensures stage1 == Stage1(c, azimuth, input)
    ensures rejected == if wantRemoved then Pick(input, RejectFlags(c, azimuth, input)) else []
  {
    hide Rejected, Pick;
    ghost var accept, refuse := AcceptFlags(c, azimuth, input), RejectFlags(c, azimuth, input);
    stage1, rejected := [], [];
    EmptyPick(input, accept);
    EmptyPick(input, refuse);
    for i := 0 to |input|
      invariant stage1 == Pick(input[..i], accept[..i])
      invariant rejected == if wantRemoved then Pick(input[..i], refuse[..i]) else []
    {
      PickNext(input, accept, i);
      PickNext(input, refuse, i);
      var p := input[i];
      if p.finite {
        var reject := IsRejected(c, azimuth, p);
        if reject {
          if wantRemoved {
            rejected := rejected + [p];
          }
        } else {
          stage1 := stage1 + [p];
        }
      }
    }
    PickAll(input, accept);
    PickAll(input, refuse);
  }

  lemma EmptyPick<T>(s: seq<T>, flags: seq<bool>)
    requires |s| == |flags|
    ensures Pick(s[..0], flags[..0]) == []
  {
  }

  method IsRejected(c: Config, azimuth: Point -> real, p: Point) returns (reject: bool)
    ensures reject <==> Rejected(c, azimuth, p)
  {
    hide Mul, SquaredRange, InSelfBox, Masked;
    var rangeSquared := SquaredRange(p);
    reject := rangeSquared < Mul(c.minRange, c.minRange);
    reject := reject || (c.intensityOn && rangeSquared < Mul(c.intensityRange, c.intensityRange)
                         && p.intensity < c.minIntensity);
    reject := reject || (c.selfOn && InSelfBox(c, p));
    if !reject && c.maskOn {
      reject := IsAngleMasked(c, azimuth(p));
    }
  }

  /** Second pass: one flag a point, written by its own iteration, in any order. */
  method RadiusPass(c: Config, s: seq<Point>) returns (keep: array<bool>)
    requires c.searchRadius > 0.0
    ensures fresh(keep) && keep[..] == SurviveFlags(c, s)
  {
    hide Mul, SquaredRange, Neighbours, Indexes;
    keep := new bool[|s|](_ => true);
    if c.radiusOn && c.minNeighbors > 0 && s != [] {
      var g := BuildGrid(c, s);
      var all := Indices(|s|);
      var todo: set<nat> := set i: nat | i in all;
      forall i: nat | i < |s|
        ensures i in todo
      {
        assert all[i] == i;
      }
      while todo != {}
        invariant forall i | i in todo :: i < |s|
        invariant forall i: nat | i < |s| :: keep[i] == (i in todo || Survives(c, s, i))
        decreases |todo|
      {
        var index: nat :| index in todo;
        todo := todo - {index};
        if SquaredRange(s[index]) > Mul(c.applyRange, c.applyRange) {
          continue;
        }
        var enough := HasEnough(c, s, g, index, c.minNeighbors + 1);
        if !enough {
          keep[index] := false;
        }
      }
    }
  }

  /** apply: the kept points in input order, and, if asked for, the removed ones. */
  method Apply(c: Config, azimuth: Point -> real, input: seq<Point>, wantRemoved: bool, stats: Stats)
    returns (output: seq<Point>, removed: seq<Point>, stats': Stats)
    requires c.searchRadius > 0.0
    ensures !c.enabled ==> output == input && removed == [] && stats' == stats
    ensures c.enabled ==> output == Pick(Stage1(c, azimuth, input), SurviveFlags(c, Stage1(c, azimuth, input)))
    ensures c.enabled && wantRemoved ==>
              multiset(output) + multiset(removed) == multiset(Pick(input, FiniteFlags(input)))
    ensures c.enabled && wantRemoved ==>
              removed == Pick(input, RejectFlags(c, azimuth, input))
                         + Pick(Stage1(c, azimuth, input), Opposite(SurviveFlags(c, Stage1(c, azimuth, input))))
    ensures c.enabled ==> stats' == Stats(|input|, |Stage1(c, azimuth, input)|, |output|,
                                          if wantRemoved then |removed| else |input| - |output|)
  {
    hide Pick, SurviveFlags;
    if !c.enabled {
      return input, [], stats;
    }
    var stage1, rejected := SplitStage1(c, azimuth, input, wantRemoved);
    var keep := RadiusPass(c, stage1);
    ghost var flags := SurviveFlags(c, stage1);
    ghost var dropped := Opposite(flags);
    ghost var early := rejected;
    output := [];
    EmptyPick(stage1, flags);
    EmptyPick(stage1, dropped);
    for i := 0 to |stage1|
      invariant keep[..] == flags
      invariant output == Pick(stage1[..i], flags[..i])
      invariant rejected == early + if wantRemoved then Pick(stage1[..i], dropped[..i]) else []
    {
      PickNext(stage1, flags, i);
      PickNext(stage1, dropped, i);
      assert keep[i] == keep[..][i];
      if keep[i] {
        output := output + [stage1[i]];
      } else if wantRemoved {
        rejected := rejected + [stage1[i]];
      }
    }
    PickAll(stage1, flags);
    PickAll(stage1, dropped);
    removed := if wantRemoved then rejected else [];
    stats' := Stats(|input|, |stage1|, |output|, if wantRemoved then |removed| else |input| - |output|);
    PickPartitions(stage1, flags);
    Stage1Partitions(c, azimuth, input);
  }

  /** The finite input is split into what the first pass accepts and what it rejects. */
  lemma Stage1Partitions(c: Config, azimuth: Point -> real, input: seq<Point>)
    ensures multiset(Stage1(c, azimuth, input)) + multiset(Pick(input, RejectFlags(c, azimuth, input)))
         == multiset(Pick(input, FiniteFlags(input)))
  {
    hide Rejected, Pick;
    PickSplits(input, AcceptFlags(c, azimuth, input), RejectFlags(c, azimuth, input), FiniteFlags(input));
  }

  /**
   The two ways of filling stats.removed agree exactly when every input point is finite: without a removed
   cloud the count also takes in the points that were dropped for not being finite.
   */
  lemma RemovedCountsAgree(c: Config, azimuth: Point -> real, input: seq<Point>)
    ensures var s := Stage1(c, azimuth, input);
            var withCloud := |Pick(input, RejectFlags(c, azimuth, input)) + Pick(s, Opposite(SurviveFlags(c, s)))|;
            var without := |input| - |Pick(s, SurviveFlags(c, s))|;
            withCloud == without <==> forall i | 0 <= i < |input| :: input[i].finite
  {
    hide SurviveFlags;
    var s := Stage1(c, azimuth, input);
    Stage1Partitions(c, azimuth, input);
    PickPartitions(s, SurviveFlags(c, s));
    PickCount(input, FiniteFlags(input));
    var a, b := Pick(input, RejectFlags(c, azimuth, input)), Pick(s, Opposite(SurviveFlags(c, s)));
    var k := Pick(s, SurviveFlags(c, s));
    assert |multiset(s)| == |multiset(k)| + |multiset(b)|;
    assert |multiset(s)| + |multiset(a)| == |multiset(Pick(input, FiniteFlags(input)))|;
  }

  predicate AllSet(flags: seq<bool>) { forall i | 0 <= i < |flags| :: flags[i] }

  lemma {:induction false} PickCount<T>(s: seq<T>, flags: seq<bool>)
    requires |s| == |flags|
    ensures |Pick(s, flags)| <= |s|
    ensures |Pick(s, flags)| == |s| <==> AllSet(flags)
    decreases |s|
  {
    if s != [] {
      var n := |s| - 1;
      PickCount(s[..n], flags[..n]);
      assert flags == flags[..n] + [flags[n]];
    }
  }
}
