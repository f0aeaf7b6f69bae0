/**
 The sliding voxel map of grid_map.cpp: a circular occupancy buffer with a reference-counted inflation
 layer. Its methods are specified by voxel, as operations on an unbounded sparse map.
 */
module SlidingMap {
  import opened Modular
  import opened VoxelAddress
  import opened InflationCount
  import opened SlideWindow

  datatype MapParam = MapParam(
    clampMin: real, clampMax: real, minOcc: real, unknownFlag: real, hitLog: real, missLog: real,
    slidingEnabled: bool, slideThreshold: int)
  {
    function Unknown(): real { clampMin - unknownFlag }
  }

  ghost predicate FlagsMatch(cnt: seq<int>, flag: seq<int>) {
    |flag| == |cnt| && forall i | 0 <= i < |cnt| :: flag[i] == if cnt[i] > 0 then 1 else 0
  }

  /** Every cell is the unknown mark or a clamped log-odds value. */
  ghost predicate Clamped(occ: seq<real>, p: MapParam) {
    forall i | 0 <= i < |occ| :: occ[i] == p.Unknown() || p.clampMin <= occ[i] <= p.clampMax
  }

  ghost predicate AllZero(s: seq<int>) {
    forall i | 0 <= i < |s| :: s[i] == 0
  }

  lemma LayerStep(w: Window, offsets: seq<Idx>, i: nat, id: Idx, delta: int, mask: seq<bool>,
                  before: seq<int>, mid: seq<int>, after: seq<int>)
    requires Sized(w.num) && Distinct(offsets) && i < |offsets|
    requires LayerUpdated(w, offsets[..i], id, delta, mask, before, mid)
    requires var v := Plus(id, offsets[i]);
             if w.Has(v) && !Read(w.num, mask, v, false)
             then 0 <= Address(w.num, v) < |mid|
                 && after == mid[Address(w.num, v) := AtLeastZero(mid[Address(w.num, v)] + delta)]
             else after == mid
    ensures LayerUpdated(w, offsets[..i + 1], id, delta, mask, before, after)
  {
    hide Address, Read;
    var t := Plus(id, offsets[i]);
    assert offsets[..i + 1] == offsets[..i] + [offsets[i]];
    forall v | w.Has(v)
      ensures Reaches(offsets[..i + 1], id, v) <==> Reaches(offsets[..i], id, v) || v == t
      ensures v == t ==> !Reaches(offsets[..i], id, v)
    {
      assert Minus(v, id) == offsets[i] <==> v == t;
    }
    if w.Has(t) && !Read(w.num, mask, t, false) {
      ReadCell(w, mid, t, 0);
      forall v | w.Has(v)
        ensures Read(w.num, after, v, 0) == if t == v then AtLeastZero(Read(w.num, mid, t, 0) + delta)
                else Read(w.num, mid, v, 0)
      {
        ReadAfterWrite(w, mid, t, AtLeastZero(mid[Address(w.num, t)] + delta), v, 0);
      }
    }
  }

  lemma NoOffsets(w: Window, id: Idx, delta: int, mask: seq<bool>, cnt: seq<int>)
    requires Sized(w.num) && |cnt| == Volume(w.num)
    ensures LayerUpdated(w, [], id, delta, mask, cnt, cnt)
  {
  }

  class GridMap {
    const num: Idx
    const offsets: seq<Idx>
    const p: MapParam
    var origin: Idx
    const occ: array<real>
    const cnt: array<int>
    const flag: array<int>
    const hits: array<int>
    const touches: array<int>
    var queue: seq<Idx>

    function Win(): Window
      reads this`origin
    {
      Window(origin, num)
    }

    /** Buffers of the right size that do not share storage. */
    ghost predicate Shape() {
      && Sized(num) && Distinct(offsets)
      && occ.Length == cnt.Length == flag.Length == hits.Length == touches.Length == Volume(num)
      && occ as object !in {cnt, flag, hits, touches}
      && cnt != flag && cnt != hits && cnt != touches && flag != hits && flag != touches && hits != touches
      && p.clampMin <= p.clampMax
    }

    ghost function Obst(): set<Idx>
      requires Shape()
      reads this`origin, occ
    {
      Occupied(Win(), occ[..], p.minOcc)
    }

    /** Each count is at most the number of obstacles in reach, and a flag says whether its count is positive. */
    ghost predicate InflationBounded()
      requires Shape()
      reads this`origin, occ, cnt, flag
    {
      CountsBelow(Win(), offsets, Obst(), [], cnt[..]) && FlagsMatch(cnt[..], flag[..])
    }

    ghost predicate InflationExact()
      requires Shape()
      reads this`origin, occ, cnt
    {
      CountsExact(Win(), offsets, Obst(), [], cnt[..])
    }

    /** Between fusion passes: nothing queued, all counters zero. */
    ghost predicate Idle()
      reads this`queue, hits, touches
    {
      queue == [] && AllZero(hits[..]) && AllZero(touches[..])
    }

    ghost predicate Valid()
      reads this, occ, cnt, flag, hits, touches
    {
      Shape() && InflationBounded() && Clamped(occ[..], p) && Idle()
    }

    /** The log-odds of a voxel of the window. */
    function Cell(v: Idx): real
      requires Sized(num)
      reads occ
    {
      Read(num, occ[..], v, p.Unknown())
    }

    /** initMap: all cells unknown, nothing inflated. */
    constructor (num: Idx, offsets: seq<Idx>, p: MapParam, origin: Idx)
      requires Sized(num) && Distinct(offsets) && p.clampMin <= p.clampMax
      ensures Valid() && this.num == num && this.offsets == offsets && this.p == p && this.origin == origin
      ensures fresh(occ) && fresh(cnt) && fresh(flag) && fresh(hits) && fresh(touches)
      ensures forall v | Win().Has(v) :: Cell(v) == p.Unknown()
      ensures p.Unknown() <= p.minOcc ==> InflationExact()
    {
      this.num, this.offsets, this.p, this.origin := num, offsets, p, origin;
      SplitVolume(num);
      occ := new real[Volume(num)](_ => p.Unknown());
      cnt := new int[Volume(num)](_ => 0);
      flag := new int[Volume(num)](_ => 0);
      hits := new int[Volume(num)](_ => 0);
      touches := new int[Volume(num)](_ => 0);
      queue := [];
      new;
      BlankMap();
    }

    /** A blank buffer satisfies the inflation bound, wherever the window stands. */
    lemma BlankMap()
      requires Shape()
      requires forall i | 0 <= i < Volume(num) :: occ[i] == p.Unknown() && cnt[i] == 0 && flag[i] == 0
      ensures InflationBounded()
      ensures forall v | Win().Has(v) :: Cell(v) == p.Unknown()
      ensures p.Unknown() <= p.minOcc ==> InflationExact()
    {
      hide Address;
      forall v | Win().Has(v)
        ensures Read(num, occ[..], v, p.minOcc) == Cell(v) == p.Unknown() && Read(num, cnt[..], v, 0) == 0
      {
        AddressOfCell(Win(), v);
      }
      if p.Unknown() <= p.minOcc {
        forall v | Win().Has(v)
          ensures Obstacles(offsets, Obst(), v) == 0
        {
          NoObstacles(offsets, Obst(), v);
        }
      }
    }

    // ---------- single-cell updates ----------

    method UpdateInflation(id: Idx, delta: int, mask: seq<bool>)
      requires Shape() && FlagsMatch(cnt[..], flag[..])
      requires mask == [] || |mask| == Volume(num)
      modifies cnt, flag
      ensures LayerUpdated(Win(), offsets, id, delta, mask, old(cnt[..]), cnt[..])
      ensures FlagsMatch(cnt[..], flag[..])
    {
      hide Address, Read, LayerUpdated;
      ghost var before := cnt[..];
      NoOffsets(Win(), id, delta, mask, cnt[..]);
      assert offsets[..0] == [];
      for i := 0 to |offsets|
        invariant LayerUpdated(Win(), offsets[..i], id, delta, mask, before, cnt[..])
        invariant FlagsMatch(cnt[..], flag[..])
      {
        ghost var mid := cnt[..];
        UpdateOne(Plus(id, offsets[i]), delta, mask);
        LayerStep(Win(), offsets, i, id, delta, mask, before, mid, cnt[..]);
      }
      assert offsets[..|offsets|] == offsets;
    }

    method UpdateOne(v: Idx, delta: int, mask: seq<bool>)
      requires Shape() && FlagsMatch(cnt[..], flag[..])
      requires mask == [] || |mask| == Volume(num)
      modifies cnt, flag
      ensures if Win().Has(v) && !Read(num, mask, v, false)
              then && 0 <= Address(num, v) < cnt.Length
                   && cnt[..] == old(cnt[..])[Address(num, v) := AtLeastZero(old(cnt[Address(num, v)]) + delta)]
              else cnt[..] == old(cnt[..])
      ensures FlagsMatch(cnt[..], flag[..])
    {
      hide Address;
      if !Win().Has(v) {
        return;
      }
      AddressOfCell(Win(), v);
      var addr := Address(num, v);
      if mask != [] && mask[addr] {
        return;
      }
      cnt[addr] := cnt[addr] + delta;
      if cnt[addr] < 0 {
        cnt[addr] := 0;
      }
      flag[addr] := if cnt[addr] > 0 then 1 else 0;
    }

    method ApplyOccupancyUpdate(id: Idx, value: real)
      requires Shape() && InflationBounded()
      modifies occ, cnt, flag
      ensures InflationBounded()
      ensures old(InflationExact()) ==> InflationExact()
      ensures !Win().Has(id) ==> occ[..] == old(occ[..])
      ensures Win().Has(id) ==> 0 <= Address(num, id) < occ.Length && occ[..] == old(occ[..])[Address(num, id) := value]
    {
      hide Address, Read, LayerUpdated, CountsBelow, CountsExact, Distinct;
      if !Win().Has(id) {
        return;
      }
      AddressOfCell(Win(), id);
      var addr := Address(num, id);
      var wasOcc := occ[addr] > p.minOcc;
      var nowOcc := value > p.minOcc;
      ghost var obst, before := Obst(), cnt[..];
      ReadCell(Win(), occ[..], id, p.minOcc);
      OccupiedAfterWrite(Win(), occ[..], p.minOcc, id, value);
      occ[addr] := value;
      assert occ[..] == old(occ[..])[addr := value];
      if wasOcc != nowOcc {
        UpdateInflation(id, if nowOcc then 1 else -1, []);
        if nowOcc {
          RaiseKeepsCounts(Win(), offsets, obst, id, [], before, cnt[..]);
        } else {
          LowerKeepsCounts(Win(), offsets, obst, id, [], before, cnt[..]);
        }
      } else {
        assert Obst() == obst;
      }
    }

    /** Writing one voxel leaves the others. */
    lemma CellAfterWrite(before: seq<real>, id: Idx, value: real)
      requires Shape() && Win().Has(id) && |before| == Volume(num) && 0 <= Address(num, id) < |before|
      requires occ[..] == before[Address(num, id) := value]
      ensures forall v | Win().Has(v) :: Cell(v) == if v == id then value else Read(num, before, v, p.Unknown())
    {
      hide Address, Read;
      forall v | Win().Has(v)
        ensures Cell(v) == if v == id then value else Read(num, before, v, p.Unknown())
      {
        ReadAfterWrite(Win(), before, id, value, v, p.Unknown());
      }
    }

    /** setOccupied / setOccupancy on a voxel index. */
    method SetOccupancy(id: Idx, occupied: bool)
      requires Valid()
      modifies occ, cnt, flag
      ensures Valid() && (old(InflationExact()) ==> InflationExact())
      ensures forall v | Win().Has(v) ::
                Cell(v) == if v == id then (if occupied then p.clampMax else p.clampMin) else old(Cell(v))
    {
      hide Address, CountsBelow, CountsExact, FlagsMatch;
      ghost var before := occ[..];
      var value := if occupied then p.clampMax else p.clampMin;
      ApplyOccupancyUpdate(id, value);
      if Win().Has(id) {
        CellAfterWrite(before, id, value);
      }
    }

    /** resetCellByAddress, for the address of a voxel of the window. */
    method ResetCell(v: Idx)
      requires Valid() && Win().Has(v)
      modifies occ, cnt, flag, hits, touches
      ensures Valid() && (old(InflationExact()) && p.Unknown() <= p.minOcc ==> InflationExact())
      ensures forall u | Win().Has(u) :: Cell(u) == if u == v then p.Unknown() else old(Cell(u))
    {
      hide Address, Global, Read, LayerUpdated, CountsBelow, CountsExact, Distinct;
      AddressOfCell(Win(), v);
      var addr := Address(num, v);
      var id := Global(Win(), addr);
      ghost var obst, before, cells := Obst(), cnt[..], occ[..];
      ReadCell(Win(), occ[..], v, p.minOcc);
      if occ[addr] > p.minOcc {
        UpdateInflation(id, -1, []);
        LowerKeepsCounts(Win(), offsets, obst, id, [], before, cnt[..]);
      } else {
        assert obst - {id} == obst;
      }
      OccupiedAfterWrite(Win(), cells, p.minOcc, v, p.Unknown());
      occ[addr] := p.Unknown();
      assert occ[..] == cells[addr := p.Unknown()];
      CellAfterWrite(cells, v, p.Unknown());
      hits[addr] := 0;
      touches[addr] := 0;
      BoundedByMore(Win(), obst - {id}, Obst(), cnt[..]);
    }

    lemma BoundedByMore(w: Window, occ1: set<Idx>, occ2: set<Idx>, counts: seq<int>)
      requires Sized(w.num) && occ1 <= occ2 && CountsBelow(w, offsets, occ1, [], counts)
      ensures CountsBelow(w, offsets, occ2, [], counts)
    {
      hide Read;
      forall v | w.Has(v)
        ensures Obstacles(offsets, occ1, v) <= Obstacles(offsets, occ2, v)
      {
        ObstaclesMonotone(offsets, occ1, occ2, v);
      }
    }

    /** boundIndex */
    function BoundIndex(id: Idx): (r: Idx)
      requires Sized(num)
      reads this`origin
      ensures Win().Has(r) && (Win().Has(id) ==> r == id)
    {
      BoundTo(Win(), id)
    }

    /** resetBuffer(min, max): the box between the two bounded corners becomes unknown. */
    method ResetRegion(minId: Idx, maxId: Idx)
      requires Valid()
      modifies occ, cnt, flag, hits, touches
      ensures Valid() && (old(InflationExact()) && p.Unknown() <= p.minOcc ==> InflationExact())
      ensures forall v | Win().Has(v) ::
                Cell(v) == if InBox(BoundIndex(minId), BoundIndex(maxId), v) then p.Unknown() else old(Cell(v))
    {
      hide Cell, InflationBounded, InflationExact, Clamped, Idle, Distinct;
      var lo, hi := BoundIndex(minId), BoundIndex(maxId);
      ghost var exact := InflationExact() && p.Unknown() <= p.minOcc;
      var x := lo.x;
      while x <= hi.x
        invariant lo.x <= x && Valid() && (exact ==> InflationExact())
        invariant forall v | Win().Has(v) ::
                    Cell(v) == if InBox(lo, hi, v) && v.x < x then p.Unknown() else old(Cell(v))
      {
        var y := lo.y;
        while y <= hi.y
          invariant lo.y <= y && Valid() && (exact ==> InflationExact())
          invariant forall v | Win().Has(v) ::
            Cell(v) == if InBox(lo, hi, v) && (v.x < x || (v.x == x && v.y < y)) then p.Unknown() else old(Cell(v))
        {
          var z := lo.z;
          while z <= hi.z
            invariant lo.z <= z && Valid() && (exact ==> InflationExact())
            invariant forall v | Win().Has(v) ::
              Cell(v) == if InBox(lo, hi, v) && (v.x < x || (v.x == x && (v.y < y || (v.y == y && v.z < z))))
                         then p.Unknown() else old(Cell(v))
          {
            ResetCell(Idx(x, y, z));
            z := z + 1;
          }
          y := y + 1;
        }
        x := x + 1;
      }
    }

    /** resetAllMapData */
    method ResetAll()
      requires Shape()
      modifies this`queue, occ, cnt, flag, hits, touches
      ensures forall i | 0 <= i < Volume(num) :: occ[i] == p.Unknown() && cnt[i] == 0 && flag[i] == 0
      ensures Clamped(occ[..], p) && Idle()
    {
      for i := 0 to occ.Length
        invariant forall k | 0 <= k < i ::
                    occ[k] == p.Unknown() && cnt[k] == 0 && flag[k] == 0 && hits[k] == 0 && touches[k] == 0
      {
        occ[i], cnt[i], flag[i], hits[i], touches[i] := p.Unknown(), 0, 0, 0, 0;
      }
      queue := [];
    }

    /** resetBuffer() */
    method ResetBuffer()
      requires Shape()
      modifies this`queue, occ, cnt, flag, hits, touches
      ensures Valid() && (p.Unknown() <= p.minOcc ==> InflationExact())
      ensures forall v | Win().Has(v) :: Cell(v) == p.Unknown()
    {
      ResetAll();
      BlankMap();
    }

    // ---------- sliding ----------

    /** One slab of the buffer: local index c along dim, every local index along the other two. */
    method MarkSlab(mask: array<bool>, addrs: seq<int>, dim: nat, c: int) returns (addrs': seq<int>)
      requires Sized(num) && mask.Length == Volume(num) && dim < 3 && 0 <= c < Coord(num, dim)
      requires Listed(mask[..], addrs)
      modifies mask
      ensures Listed(mask[..], addrs')
      ensures forall i | 0 <= i < mask.Length :: mask[i] <==> old(mask[i]) || Coord(Split(num, i), dim) == c
    {
      hide Split, Flatten, Volume;
      addrs' := addrs;
      forall i | 0 <= i < mask.Length
        ensures 0 <= Coord(Split(num, i), (dim + 1) % 3) < Coord(num, (dim + 1) % 3)
        ensures 0 <= Coord(Split(num, i), (dim + 2) % 3) < Coord(num, (dim + 2) % 3)
      {
        SplitFlatten(num, i);
      }
      var a := 0;
      while a < Coord(num, (dim + 1) % 3)
        invariant 0 <= a <= Coord(num, (dim + 1) % 3) && Listed(mask[..], addrs')
        invariant forall i | 0 <= i < mask.Length ::
          mask[i] <==> old(mask[i]) || (Coord(Split(num, i), dim) == c && Coord(Split(num, i), (dim + 1) % 3) < a)
      {
        var b := 0;
        while b < Coord(num, (dim + 2) % 3)
          invariant 0 <= b <= Coord(num, (dim + 2) % 3) && Listed(mask[..], addrs')
          invariant forall i | 0 <= i < mask.Length ::
            mask[i] <==> old(mask[i]) || (Coord(Split(num, i), dim) == c && Before(dim, a, b, Split(num, i)))
        {
          var l := FromCoords(dim, c, a, b);
          FlattenSplit(num, l.x, l.y, l.z);
          var addr := Flatten(num, l.x, l.y, l.z);
          forall i | 0 <= i < mask.Length && Split(num, i) == l
            ensures i == addr
          {
            SplitFlatten(num, i);
          }
          if !mask[addr] {
            mask[addr] := true;
            addrs' := addrs' + [addr];
          }
          b := b + 1;
        }
        a := a + 1;
      }
    }

    /** All slabs an axis leaves behind. */
    method MarkAxis(mask: array<bool>, addrs: seq<int>, dim: nat, lo: int, shift: int) returns (addrs': seq<int>)
      requires Sized(num) && mask.Length == Volume(num) && dim < 3 && Abs(shift) < Coord(num, dim)
      requires Listed(mask[..], addrs)
      modifies mask
      ensures Listed(mask[..], addrs')
      ensures forall i | 0 <= i < mask.Length ::
                mask[i] <==> old(mask[i]) || AxisCleared(lo, Coord(num, dim), shift, Coord(Split(num, i), dim))
    {
      hide Split, Volume, LocalIndex, Listed;
      addrs' := addrs;
      var n := Coord(num, dim);
      for k := 0 to Abs(shift)
        invariant Listed(mask[..], addrs')
        invariant forall i | 0 <= i < mask.Length ::
          mask[i] <==> old(mask[i]) || AxisCleared(lo, n, if shift > 0 then k else -k, Coord(Split(num, i), dim))
      {
        var up := shift > 0;
        var g := if up then lo + k else lo + n - 1 - k;
        LocalIndexIsResidue(g, n);
        addrs' := MarkSlab(mask, addrs', dim, LocalIndex(g, n));
        forall i | 0 <= i < mask.Length
          ensures AxisCleared(lo, n, if shift > 0 then k + 1 else -(k + 1), Coord(Split(num, i), dim))
             <==> || AxisCleared(lo, n, if shift > 0 then k else -k, Coord(Split(num, i), dim))
                  || Coord(Split(num, i), dim) == LocalIndex(g, n)
        {
          AxisClearedStep(lo, n, up, k, Coord(Split(num, i), dim));
        }
      }
    }

    /** The addresses to clear, each once. */
    method MarkCleared(next: Window) returns (mask: array<bool>, addrs: seq<int>)
      requires SmallShift(Win(), next) && Win().num == num
      ensures fresh(mask) && mask.Length == Volume(num) && ClearMask(Win(), next, mask[..]) && Listed(mask[..], addrs)
    {
      hide Split, AxisCleared;
      SplitVolume(num);
      mask := new bool[Volume(num)](_ => false);
      addrs := [];
      var shift := Shift(Win(), next);
      addrs := MarkAxis(mask, addrs, 0, Win().Lo().x, shift.x);
      addrs := MarkAxis(mask, addrs, 1, Win().Lo().y, shift.y);
      addrs := MarkAxis(mask, addrs, 2, Win().Lo().z, shift.z);
    }

    /** First clearing loop: take the leaving obstacles out of the counts of the cells that stay. */
    method RetractCleared(mask: seq<bool>, addrs: seq<int>, ghost next: Window)
      requires Shape() && InflationBounded()
      requires SmallShift(Win(), next) && ClearMask(Win(), next, mask) && Listed(mask, addrs)
      modifies cnt, flag
      ensures CountsBelow(Win(), offsets, Survivors(Obst(), next), mask, cnt[..]) && FlagsMatch(cnt[..], flag[..])
      ensures old(InflationExact()) ==> CountsExact(Win(), offsets, Survivors(Obst(), next), mask, cnt[..])
    {
      hide Address, Global, Read, LayerUpdated, CountsBelow, CountsExact, Distinct, Cleared, FlagsMatch;
      ghost var exact, w, obst := InflationExact(), Win(), Obst();
      StartRetract(w, obst, mask, cnt[..]);
      assert Remaining(w, obst, addrs[..0]) == obst;
      for i := 0 to |addrs|
        invariant CountsBelow(w, offsets, Remaining(w, obst, addrs[..i]), mask, cnt[..])
                  && FlagsMatch(cnt[..], flag[..])
        invariant exact ==> CountsExact(w, offsets, Remaining(w, obst, addrs[..i]), mask, cnt[..])
      {
        var addr := addrs[i];
        CellOfAddress(w, addr);
        var id := Global(Win(), addr);
        ghost var rest, before := Remaining(w, obst, addrs[..i]), cnt[..];
        RemainingStep(w, obst, mask, addrs, i);
        ReadCell(w, occ[..], id, p.minOcc);
        if occ[addr] > p.minOcc {
          UpdateInflation(id, -1, mask);
          LowerKeepsCounts(w, offsets, rest, id, mask, before, cnt[..]);
        }
      }
      assert addrs[..|addrs|] == addrs;
      RemainingSurvives(w, next, obst, mask, addrs);
    }

    lemma StartRetract(w: Window, obst: set<Idx>, mask: seq<bool>, counts: seq<int>)
      requires Sized(w.num)
      ensures CountsBelow(w, offsets, obst, [], counts) ==> CountsBelow(w, offsets, obst, mask, counts)
      ensures CountsExact(w, offsets, obst, [], counts) ==> CountsExact(w, offsets, obst, mask, counts)
    {
      hide Address;
    }

    /** Second clearing loop. */
    method WipeCleared(mask: seq<bool>, addrs: seq<int>)
      requires Shape() && Listed(mask, addrs) && |mask| == Volume(num) && Idle() && FlagsMatch(cnt[..], flag[..])
      modifies occ, cnt, flag, hits, touches
      ensures Wiped(mask, p.Unknown(), old(occ[..]), occ[..]) && Wiped(mask, 0, old(cnt[..]), cnt[..])
      ensures FlagsMatch(cnt[..], flag[..]) && Idle()
      ensures old(Clamped(occ[..], p)) ==> Clamped(occ[..], p)
    {
      ghost var occ0, cnt0 := occ[..], cnt[..];
      for i := 0 to |addrs|
        invariant forall k | 0 <= k < |mask| :: occ[k] == if k in addrs[..i] then p.Unknown() else occ0[k]
        invariant forall k | 0 <= k < |mask| :: cnt[k] == if k in addrs[..i] then 0 else cnt0[k]
        invariant forall k | 0 <= k < |mask| :: flag[k] == if cnt[k] > 0 then 1 else 0
        invariant forall k | 0 <= k < |mask| :: hits[k] == 0 && touches[k] == 0
      {
        var addr := addrs[i];
        assert addrs[..i + 1] == addrs[..i] + [addr];
        occ[addr] := p.Unknown();
        cnt[addr] := 0;
        flag[addr] := 0;
        hits[addr] := 0;
        touches[addr] := 0;
      }
      assert addrs[..|addrs|] == addrs;
    }

    /** updateSlidingMap, for the origin cell of the requested centre. */
    method UpdateSlidingMap(newOrigin: Idx)
      requires Valid()
      modifies this`origin, this`queue, occ, cnt, flag, hits, touches
      ensures Valid()
      ensures origin == if Slides(p, old(Win()), newOrigin) then newOrigin else old(origin)
      // the origin stays or becomes the requested one; an enabled map ends near it, and does not move when it is near
      ensures origin in {old(origin), newOrigin} && (!p.slidingEnabled ==> origin == old(origin))
      ensures p.slidingEnabled && 0 < p.slideThreshold ==> Near(origin, newOrigin, p.slideThreshold)
      ensures Near(old(origin), newOrigin, p.slideThreshold) ==> origin == old(origin)
      // the sparse map: cells of both windows keep their value, all others of the new window are unknown
      ensures forall v | Win().Has(v) :: Cell(v) == if old(Win()).Has(v) then old(Cell(v)) else p.Unknown()
      // exact counts stay exact just when no obstacle that stays reaches a cell that enters
      ensures old(InflationExact()) && p.Unknown() <= p.minOcc ==>
                (InflationExact() <==> NoneReachesEntering(old(Win()), Win(), offsets, old(Obst())))
    {
      hide Address, Global, Read, CountsBelow, CountsExact, Distinct, Cleared, FlagsMatch, Wiped, Clamped, AllZero,
           Listed, ClearMask;
      ghost var w, obst, occ0, exact := Win(), Obst(), occ[..], InflationExact();
      if !Slides(p, Win(), newOrigin) {
        assert Win() == w && Obst() == obst;
        return;
      }
      var next := Window(newOrigin, num);
      if !SmallShift(Win(), next) {
        ResetAll();
        origin := newOrigin;
        BlankMap();
        JumpReachesNothing(w, next, obst);
        return;
      }
      var mask, addrs := MarkCleared(next);
      RetractCleared(mask[..], addrs, next);
      ghost var cntMid := cnt[..];
      WipeCleared(mask[..], addrs);
      origin := newOrigin;
      BoundAfterSlide(w, next, offsets, mask[..], p.Unknown(), p.minOcc, occ0, occ[..], cntMid, cnt[..]);
      CellsAfterSlide(w, next, mask[..], occ0);
      if exact && p.Unknown() <= p.minOcc {
        ExactAfterSlide(w, next, offsets, mask[..], p.Unknown(), p.minOcc, occ0, occ[..], cntMid, cnt[..]);
      }
    }

    lemma CellsAfterSlide(w: Window, next: Window, mask: seq<bool>, before: seq<real>)
      requires Shape() && SmallShift(w, next) && w.num == num && ClearMask(w, next, mask)
               && Wiped(mask, p.Unknown(), before, occ[..])
      ensures forall v | next.Has(v) :: Cell(v) == if w.Has(v) then Read(num, before, v, p.Unknown()) else p.Unknown()
    {
      hide Read, Wiped, ClearMask;
      forall v | next.Has(v)
        ensures Cell(v) == if w.Has(v) then Read(num, before, v, p.Unknown()) else p.Unknown()
      {
        WipedRead(w, next, mask, p.Unknown(), before, occ[..], v, p.Unknown());
      }
    }

    lemma JumpReachesNothing(w: Window, next: Window, obst: set<Idx>)
      requires w.num == next.num && Sized(w.num) && !SmallShift(w, next)
      ensures NoneReachesEntering(w, next, offsets, obst)
      ensures forall v | next.Has(v) :: !w.Has(v)
    {
      forall v | next.Has(v)
        ensures !w.Has(v)
      {
        JumpDisjoint(w, next, v);
      }
    }

    // ---------- fusion ----------

    function TouchCount(v: Idx): int
      requires Sized(num)
      reads touches
    {
      Read(num, touches[..], v, 0)
    }

    function HitCount(v: Idx): int
      requires Sized(num)
      reads hits
    {
      Read(num, hits[..], v, 0)
    }

    /** During a pass: the queue holds each touched voxel once, and no voxel has more hits than touches. */
    ghost predicate CacheConsistent()
      requires Sized(num)
      reads this`origin, this`queue, hits, touches
    {
      && Distinct(queue)
      && (forall v | v in queue :: Win().Has(v))
      && (forall v | Win().Has(v) :: (TouchCount(v) > 0 <==> v in queue) && 0 <= HitCount(v) <= TouchCount(v))
    }

    /** setCacheOccupancy on a voxel index. */
    method SetCacheOccupancy(id: Idx, hit: bool)
      requires Shape() && CacheConsistent()
      modifies this`queue, hits, touches
      ensures CacheConsistent()
      ensures forall v | Win().Has(v) ::
                && TouchCount(v) == old(TouchCount(v)) + (if v == id then 1 else 0)
                && HitCount(v) == old(HitCount(v)) + (if v == id && hit then 1 else 0)
    {
      hide Address, Read;
      if !Win().Has(id) {
        return;
      }
      ghost var touches0, hits0 := touches[..], hits[..];
      ReadCell(Win(), touches0, id, 0);
      ReadCell(Win(), hits0, id, 0);
      var addr := Address(num, id);
      touches[addr] := touches[addr] + 1;
      CountAfterWrite(touches0, id, touches[addr], touches[..]);
      if touches[addr] == 1 {
        queue := queue + [id];
      }
      if hit {
        hits[addr] := hits[addr] + 1;
        CountAfterWrite(hits0, id, hits[addr], hits[..]);
      }
    }

    lemma CountAfterWrite(before: seq<int>, id: Idx, value: int, after: seq<int>)
      requires Shape() && Win().Has(id) && |before| == Volume(num) && 0 <= Address(num, id) < |before|
      requires after == before[Address(num, id) := value]
      ensures forall v | Win().Has(v) :: Read(num, after, v, 0) == if v == id then value else Read(num, before, v, 0)
    {
      hide Address, Read;
      forall v | Win().Has(v)
        ensures Read(num, after, v, 0) == if v == id then value else Read(num, before, v, 0)
      {
        ReadAfterWrite(Win(), before, id, value, v, 0);
      }
    }

    /** The vote of a voxel taken from the queue; its counters start again. */
    method TakeVote(id: Idx) returns (hit: bool)
      requires Shape() && Win().Has(id)
      modifies hits, touches
      ensures hit <==> old(HitCount(id)) >= old(TouchCount(id)) - old(HitCount(id))
      ensures forall v | Win().Has(v) ::
                && TouchCount(v) == (if v == id then 0 else old(TouchCount(v)))
                && HitCount(v) == (if v == id then 0 else old(HitCount(v)))
    {
      hide Address, Read;
      ghost var touches0, hits0 := touches[..], hits[..];
      ReadCell(Win(), touches0, id, 0);
      ReadCell(Win(), hits0, id, 0);
      var addr := Address(num, id);
      hit := hits[addr] >= touches[addr] - hits[addr];
      hits[addr], touches[addr] := 0, 0;
      assert hits[..] == hits0[addr := 0] && touches[..] == touches0[addr := 0];
      CountAfterWrite(hits0, id, 0, hits[..]);
      CountAfterWrite(touches0, id, 0, touches[..]);
    }

    /** What the vote does to the voxel. */
    method CastVote(id: Idx, hit: bool, lo: Idx, hi: Idx)
      requires Shape() && InflationBounded() && Clamped(occ[..], p) && Win().Has(id)
      modifies occ, cnt, flag
      ensures InflationBounded() && Clamped(occ[..], p) && (old(InflationExact()) ==> InflationExact())
      ensures forall v | Win().Has(v) ::
                Cell(v) == if v == id then Vote(p, old(Cell(v)), hit, InBox(lo, hi, v)) else old(Cell(v))
      ensures Fused(p, old(Cell(id)), hit, InBox(lo, hi, id), Cell(id))
    {
      OneVoteFuses(p, Cell(id), hit, InBox(lo, hi, id));
      hide Address, Read, CountsBelow, CountsExact, FlagsMatch, Fused;
      ghost var occ0 := occ[..];
      ReadCell(Win(), occ0, id, p.Unknown());
      var addr := Address(num, id);
      var update := if hit then p.hitLog else p.missLog;
      if update >= 0.0 && occ[addr] >= p.clampMax {
        return;
      }
      if update <= 0.0 && occ[addr] <= p.clampMin {
        ApplyOccupancyUpdate(id, p.clampMin);
        CellAfterWrite(occ0, id, p.clampMin);
        return;
      }
      if !InBox(lo, hi, id) {
        ApplyOccupancyUpdate(id, p.clampMin);
      }
      var raised := occ[addr] + update;
      var floored := if raised < p.clampMin then p.clampMin else raised;
      var value := if floored > p.clampMax then p.clampMax else floored;
      ApplyOccupancyUpdate(id, value);
      assert occ[..] == occ0[addr := value];
      CellAfterWrite(occ0, id, value);
    }

    /** The drain loop of raycastProcess. */
    method Drain(lo: Idx, hi: Idx)
      requires Shape() && InflationBounded() && Clamped(occ[..], p) && CacheConsistent()
      modifies this`queue, occ, cnt, flag, hits, touches
      ensures Valid() && (old(InflationExact()) ==> InflationExact())
      ensures forall v | Win().Has(v) ::
                Cell(v) == if old(TouchCount(v)) > 0
                           then Vote(p, old(Cell(v)), old(HitCount(v)) >= old(TouchCount(v)) - old(HitCount(v)),
                                     InBox(lo, hi, v))
                           else old(Cell(v))
      ensures forall v | Win().Has(v) && old(TouchCount(v)) > 0 ::
                Fused(p, old(Cell(v)), old(HitCount(v)) >= old(TouchCount(v)) - old(HitCount(v)), InBox(lo, hi, v),
                      Cell(v))
    {
      hide Cell, TouchCount, HitCount, InflationBounded, InflationExact, Clamped, Vote, InBox, Fused;
      while queue != []
        invariant InflationBounded() && Clamped(occ[..], p) && CacheConsistent()
        invariant old(InflationExact()) ==> InflationExact()
        invariant forall v | v in queue :: v in old(queue)
        invariant forall v | Win().Has(v) ::
          if v in old(queue) && v !in queue
          then Cell(v)
              == Vote(p, old(Cell(v)), old(HitCount(v)) >= old(TouchCount(v)) - old(HitCount(v)), InBox(lo, hi, v))
          else Cell(v) == old(Cell(v)) && TouchCount(v) == old(TouchCount(v)) && HitCount(v) == old(HitCount(v))
        decreases |queue|
      {
        var id := queue[0];
        assert queue == [id] + queue[1..];
        assert id !in queue[1..];
        queue := queue[1..];
        var hit := TakeVote(id);
        CastVote(id, hit, lo, hi);
      }
      CountersZero();
      VoteFuses(p);
    }

    lemma CountersZero()
      requires Shape() && CacheConsistent() && queue == []
      ensures Idle()
    {
      hide Address, Global;
      forall i | 0 <= i < Volume(num)
        ensures hits[i] == 0 && touches[i] == 0
      {
        CellOfAddress(Win(), i);
        assert TouchCount(Global(Win(), i)) == touches[i] && HitCount(Global(Win(), i)) == hits[i];
      }
    }

    lemma IdleIsConsistent()
      requires Shape() && Idle()
      ensures CacheConsistent()
      ensures forall v | Win().Has(v) :: TouchCount(v) == 0 && HitCount(v) == 0
    {
      hide Address;
      forall v | Win().Has(v)
        ensures TouchCount(v) == 0 && HitCount(v) == 0
      {
        AddressOfCell(Win(), v);
      }
    }

    /** The touches of one projected point: its end and the cells of its ray. */
    method TouchRay(ray: seq<Touch>)
      requires Shape() && CacheConsistent()
      modifies this`queue, hits, touches
      ensures CacheConsistent()
      ensures forall v | Win().Has(v) ::
                && TouchCount(v) == old(TouchCount(v)) + TouchesOf(ray, v)
                && HitCount(v) == old(HitCount(v)) + HitsOf(ray, v)
    {
      hide TouchCount, HitCount;
      assert ray[..0] == [];
      for i := 0 to |ray|
        invariant CacheConsistent()
        invariant forall v | Win().Has(v) ::
                    && TouchCount(v) == old(TouchCount(v)) + TouchesOf(ray[..i], v)
                    && HitCount(v) == old(HitCount(v)) + HitsOf(ray[..i], v)
      {
        assert ray[..i + 1][..i] == ray[..i];
        SetCacheOccupancy(ray[i].id, ray[i].hit);
      }
      assert ray[..|ray|] == ray;
    }

    /** The touches of a pass, point by point. */
    method TouchAll(rays: seq<seq<Touch>>)
      requires Shape() && Idle()
      modifies this`queue, hits, touches
      ensures CacheConsistent()
      ensures forall v | Win().Has(v) ::
                TouchCount(v) == TouchesOf(Flat(rays), v) && HitCount(v) == HitsOf(Flat(rays), v)
    {
      hide TouchCount, HitCount, TouchesOf, HitsOf, Flat;
      IdleIsConsistent();
      NoRays();
      assert rays[..0] == [];
      for i := 0 to |rays|
        invariant CacheConsistent()
        invariant forall v | Win().Has(v) ::
                    TouchCount(v) == TouchesOf(Flat(rays[..i]), v) && HitCount(v) == HitsOf(Flat(rays[..i]), v)
      {
        assert rays[..i + 1][..i] == rays[..i];
        OneMoreRay(rays[..i + 1]);
        TouchRay(rays[i]);
      }
      assert rays[..|rays|] == rays;
    }

    /**
     raycastProcess, with the touches that each projected point makes: without a point nothing happens; otherwise the
     map slides, the touches are counted, and each touched voxel gets its one vote.
     */
    method RaycastProcess(newOrigin: Idx, rays: seq<seq<Touch>>, minId: Idx, maxId: Idx)
      requires Valid()
      modifies this`origin, this`queue, occ, cnt, flag, hits, touches
      ensures Valid()
      ensures origin == if rays != [] && Slides(p, old(Win()), newOrigin) then newOrigin else old(origin)
      ensures forall v | Win().Has(v) ::
                var before := if old(Win()).Has(v) then old(Cell(v)) else p.Unknown();
                Cell(v) == if TouchesOf(Flat(rays), v) > 0
                           then Vote(p, before,
                                     HitsOf(Flat(rays), v) >= TouchesOf(Flat(rays), v) - HitsOf(Flat(rays), v),
                                     InBox(BoundIndex(minId), BoundIndex(maxId), v))
                           else before
      ensures forall v | Win().Has(v) && TouchesOf(Flat(rays), v) > 0 ::
                var before := if old(Win()).Has(v) then old(Cell(v)) else p.Unknown();
                Fused(p, before, HitsOf(Flat(rays), v) >= TouchesOf(Flat(rays), v) - HitsOf(Flat(rays), v),
                      InBox(BoundIndex(minId), BoundIndex(maxId), v), Cell(v))
      ensures old(InflationExact()) && p.Unknown() <= p.minOcc
              && NoneReachesEntering(old(Win()), Win(), offsets, old(Obst()))
              ==> InflationExact()
    {
      hide Cell, TouchCount, HitCount, InflationBounded, InflationExact, Clamped, Vote, InBox, Obst,
           NoneReachesEntering, Flat, Fused;
      NoRays();
      if rays == [] {
        return;
      }
      UpdateSlidingMap(newOrigin);
      TouchAll(rays);
      Drain(BoundIndex(minId), BoundIndex(maxId));
    }

    // ---------- runs ----------

    /** The buffer shows an unbounded map through the window. */
    ghost predicate Shows(s: Sparse)
      requires Sized(num)
      reads this`origin, occ
    {
      origin == s.origin && forall v | Win().Has(v) :: Cell(v) == s.cells(v)
    }

    /** One operation on the buffer does to the unbounded map what the operation says. */
    method Do(op: MapOp, ghost s: Sparse)
      requires Valid() && Shows(s)
      modifies this`origin, this`queue, occ, cnt, flag, hits, touches
      ensures Valid() && Shows(Next(p, num, s, op))
      ensures old(InflationExact()) && p.Unknown() <= p.minOcc && EntersClear(p, num, offsets, s, op)
              ==> InflationExact()
    {
      hide Cell, InflationExact, InflationBounded, Clamped, Idle, Vote, Obst, InBox;
      ghost var w, obst := Win(), Obst();
      ObstShown(s);
      match op {
        case Occupy(id, occupied) => SetOccupancy(id, occupied);
        case ClearBox(minId, maxId) => ResetRegion(minId, maxId);
        case ClearAll => ResetBuffer();
        case Slide(to) =>
          UpdateSlidingMap(to);
          if EntersClear(p, num, offsets, s, op) {
            ClearMeansNoneReaches(s, op, w, Win(), obst);
          }
        case Fuse(to, rays, minId, maxId) =>
          ghost var slid := if rays == [] then s else SlideTo(p, num, s, to);
          NoRays();
          RaycastProcess(to, rays, minId, maxId);
          if EntersClear(p, num, offsets, s, op) {
            ClearMeansNoneReaches(s, op, w, Win(), obst);
          }
          assert BoundIndex(minId) == BoundTo(Win(), minId) && BoundIndex(maxId) == BoundTo(Win(), maxId);
          forall v | Win().Has(v)
            ensures slid.cells(v) == if w.Has(v) then s.cells(v) else p.Unknown()
            ensures Cell(v) == Next(p, num, s, op).cells(v)
          {
          }
      }
    }

    /** The obstacles of the buffer are those the unbounded map has in the window. */
    lemma ObstShown(s: Sparse)
      requires Shape() && Shows(s)
      ensures forall u :: u in Obst() <==> Win().Has(u) && s.cells(u) > p.minOcc
    {
      forall u | Win().Has(u)
        ensures u in Obst() <==> s.cells(u) > p.minOcc
      {
        CellIsObst(u);
      }
      hide Cell, Obst;
    }

    lemma CellIsObst(u: Idx)
      requires Shape() && Win().Has(u)
      ensures u in Obst() <==> Cell(u) > p.minOcc
    {
      hide Read;
      ReadCell(Win(), occ[..], u, p.minOcc);
      ReadCell(Win(), occ[..], u, p.Unknown());
    }

    lemma ClearMeansNoneReaches(s: Sparse, op: MapOp, w: Window, next: Window, obst: set<Idx>)
      requires EntersClear(p, num, offsets, s, op) && w == Window(s.origin, num)
      requires next == Window(Next(p, num, s, op).origin, num)
      requires forall u :: u in obst <==> w.Has(u) && s.cells(u) > p.minOcc
      ensures NoneReachesEntering(w, next, offsets, obst)
    {
    }

    /**
     Any run: the map stays valid and shows the unbounded map; exact counts stay exact as long as no obstacle that stays
     reaches a cell that enters, in any slide.
     */
    method Run(ops: seq<MapOp>, ghost s: Sparse)
      requires Valid() && Shows(s)
      modifies this`origin, this`queue, occ, cnt, flag, hits, touches
      ensures Valid() && Shows(After(p, num, s, ops))
      ensures old(InflationExact()) && p.Unknown() <= p.minOcc && RunEntersClear(p, num, offsets, s, ops)
              ==> InflationExact()
      // a voxel that all passes vote for the same way has moved that many times, up to the clamp
      ensures forall v, hit | Win().Has(v) && VotesCount(p, num, s, ops, v, hit) ::
                Cell(v) == Steady(p, s.cells(v), hit, |ops|)
    {
      hide InflationExact, InflationBounded, Clamped, Idle, Shows, Next, EntersClear, VotesCount;
      assert ops[..0] == [];
      for i := 0 to |ops|
        invariant Valid() && Shows(After(p, num, s, ops[..i]))
        invariant old(InflationExact()) && p.Unknown() <= p.minOcc && RunEntersClear(p, num, offsets, s, ops[..i])
                  ==> InflationExact()
      {
        assert ops[..i + 1][..i] == ops[..i];
        Do(ops[i], After(p, num, s, ops[..i]));
      }
      assert ops[..|ops|] == ops;
      VotesShow(ops, s);
    }

    lemma VotesShow(ops: seq<MapOp>, s: Sparse)
      requires Sized(num) && Shows(After(p, num, s, ops))
      ensures forall v, hit | Win().Has(v) && VotesCount(p, num, s, ops, v, hit) ::
                Cell(v) == Steady(p, s.cells(v), hit, |ops|)
    {
      hide Cell, After, Steady, AllVoteFor;
      forall v, hit | Win().Has(v) && VotesCount(p, num, s, ops, v, hit)
        ensures Cell(v) == Steady(p, s.cells(v), hit, |ops|)
      {
        VotesAddUp(p, num, s, ops, v, hit);
      }
    }
  }

  const SMALL := MapParam(0.0, 1.0, 0.5, 0.5, 1.0, -1.0, true, 1)
  const ROW := [Idx(-1, 0, 0), Idx(0, 0, 0), Idx(1, 0, 0)]

  const LAST := Idx(1, 0, 0)
  const ROW_AT_ZERO := Window(Idx(0, 0, 0), Idx(3, 1, 1))
  const ROW_AT_ONE := Window(Idx(1, 0, 0), Idx(3, 1, 1))

  lemma LastReachesEntering(obst: set<Idx>)
    requires LAST in obst
    ensures !NoneReachesEntering(ROW_AT_ZERO, ROW_AT_ONE, ROW, obst)
  {
    var entering := Idx(2, 0, 0);
    assert ROW[2] == Minus(entering, LAST);
    assert Reaches(ROW, LAST, entering);
    hide Reaches;
    assert ROW_AT_ZERO.Has(LAST) && ROW_AT_ONE.Has(LAST) && ROW_AT_ONE.Has(entering) && !ROW_AT_ZERO.Has(entering);
  }

  lemma RowFacts()
    ensures Sized(Idx(3, 1, 1)) && Distinct(ROW) && SMALL.clampMin <= SMALL.clampMax && SMALL.Unknown() <= SMALL.minOcc
    ensures Slides(SMALL, ROW_AT_ZERO, LAST) && ROW_AT_ZERO.Has(LAST) && ROW_AT_ONE.Has(LAST)
  {
  }

  /**
   A row of three cells with an obstacle in the last one slides by one: the obstacle stays and reaches the cell that
   enters, whose count starts at zero all the same.
   */
  method SlideLosesCount() returns (m: GridMap)
    ensures fresh(m) && m.Valid() && m.Win() == ROW_AT_ONE
    ensures m.Cell(LAST) > m.p.minOcc && !m.InflationExact()
  {
    RowFacts();
    hide Distinct, Sized, Address, Read, CountsBelow, CountsExact, FlagsMatch, Clamped, AllZero, Slides;
    hide Occupied, NoneReachesEntering;
    m := new GridMap(Idx(3, 1, 1), ROW, SMALL, Idx(0, 0, 0));
    m.SetOccupancy(LAST, true);
    assert m.Win() == ROW_AT_ZERO;
    m.CellIsObst(LAST);
    LastReachesEntering(m.Obst());
    m.UpdateSlidingMap(LAST);
  }

  /** One call of setCacheOccupancy. */
  datatype Touch = Touch(id: Idx, hit: bool)

  /** All touches of a pass, in the order the ray casting makes them. */
  function Flat(rays: seq<seq<Touch>>): seq<Touch>
    decreases |rays|
  {
    if rays == [] then [] else Flat(rays[..|rays| - 1]) + rays[|rays| - 1]
  }

  lemma NoRays()
    ensures Flat([]) == [] && forall v :: TouchesOf([], v) == HitsOf([], v) == 0
  {
  }

  lemma {:induction false} TouchesAdd(a: seq<Touch>, b: seq<Touch>, v: Idx)
    ensures TouchesOf(a + b, v) == TouchesOf(a, v) + TouchesOf(b, v)
    ensures HitsOf(a + b, v) == HitsOf(a, v) + HitsOf(b, v)
    decreases |b|
  {
    if b == [] {
      assert a + b == a;
    } else {
      var n := |b| - 1;
      TouchesAdd(a, b[..n], v);
      assert (a + b)[..|a + b| - 1] == a + b[..n];
    }
  }

  lemma OneMoreRay(rays: seq<seq<Touch>>)
    requires rays != []
    ensures var (before, last) := (Flat(rays[..|rays| - 1]), rays[|rays| - 1]);
            forall v ::
              && TouchesOf(Flat(rays), v) == TouchesOf(before, v) + TouchesOf(last, v)
              && HitsOf(Flat(rays), v) == HitsOf(before, v) + HitsOf(last, v)
  {
    forall v
      ensures TouchesOf(Flat(rays), v) == TouchesOf(Flat(rays[..|rays| - 1]), v) + TouchesOf(rays[|rays| - 1], v)
      ensures HitsOf(Flat(rays), v) == HitsOf(Flat(rays[..|rays| - 1]), v) + HitsOf(rays[|rays| - 1], v)
    {
      TouchesAdd(Flat(rays[..|rays| - 1]), rays[|rays| - 1], v);
    }
  }

  function TouchesOf(rays: seq<Touch>, v: Idx): nat {
    if |rays| == 0 then 0
    else TouchesOf(rays[..|rays| - 1], v) + (if rays[|rays| - 1].id == v then 1 else 0)
  }

  function HitsOf(rays: seq<Touch>, v: Idx): nat {
    if |rays| == 0 then 0
    else HitsOf(rays[..|rays| - 1], v) + (if rays[|rays| - 1].id == v && rays[|rays| - 1].hit then 1 else 0)
  }

  /** The log-odds of a voxel after its vote. */
  function Vote(p: MapParam, c: real, hit: bool, inLocal: bool): real {
    var update := if hit then p.hitLog else p.missLog;
    if update >= 0.0 && c >= p.clampMax then c
    else if update <= 0.0 && c <= p.clampMin then p.clampMin
    else
      var raised := (if inLocal then c else p.clampMin) + update;
      var floored := if raised < p.clampMin then p.clampMin else raised;
      if floored > p.clampMax then p.clampMax else floored
  }

  function Least(a: real, b: real): real { if b < a then b else a }

  function Greatest(a: real, b: real): real { if a < b then b else a }

  /**
   What one vote does when a hit counts for occupied and a miss for free. In the local range the value moves by the
   log-odds of the vote, up to the clamp. Outside it starts again from the lowest value, or stays at the highest.
   */
  ghost predicate Fused(p: MapParam, c: real, hit: bool, inLocal: bool, after: real) {
    p.missLog < 0.0 < p.hitLog && c <= p.clampMax ==>
      if inLocal then
        after == if hit then Least(p.clampMax, Greatest(p.clampMin, c + p.hitLog))
                 else Greatest(p.clampMin, c + p.missLog)
      else
        after == if !hit then p.clampMin
                 else if c == p.clampMax then c
                 else Least(p.clampMax, p.clampMin + p.hitLog)
  }

  lemma VoteFuses(p: MapParam)
    requires p.clampMin <= p.clampMax
    ensures forall c, hit, inLocal :: Fused(p, c, hit, inLocal, Vote(p, c, hit, inLocal))
  {
  }

  lemma OneVoteFuses(p: MapParam, c: real, hit: bool, inLocal: bool)
    requires p.clampMin <= p.clampMax
    ensures Fused(p, c, hit, inLocal, Vote(p, c, hit, inLocal))
  {
  }

  /** What a caller can do to the map. */
  datatype MapOp =
    | Occupy(id: Idx, occupied: bool) | ClearBox(minId: Idx, maxId: Idx) | ClearAll
    | Slide(to: Idx) | Fuse(to: Idx, rays: seq<seq<Touch>>, minId: Idx, maxId: Idx)

  /** A map of the whole grid, and where the window on it stands. */
  datatype Sparse = Sparse(origin: Idx, cells: Idx -> real)

  function BoundTo(w: Window, id: Idx): Idx {
    Idx(Clip(id.x, w.Lo().x, w.Hi().x), Clip(id.y, w.Lo().y, w.Hi().y), Clip(id.z, w.Lo().z, w.Hi().z))
  }

  function SlideTo(p: MapParam, num: Idx, s: Sparse, to: Idx): Sparse {
    var w := Window(s.origin, num);
    if Slides(p, w, to) then Sparse(to, v => if w.Has(v) then s.cells(v) else p.Unknown()) else s
  }

  /** Each operation on the unbounded map; what leaves the window is forgotten. */
  function Next(p: MapParam, num: Idx, s: Sparse, op: MapOp): Sparse {
    match op
    case Occupy(id, occupied) =>
      s.(cells := v => if v == id then (if occupied then p.clampMax else p.clampMin) else s.cells(v))
    case ClearBox(minId, maxId) =>
      var w := Window(s.origin, num);
      s.(cells := v => if InBox(BoundTo(w, minId), BoundTo(w, maxId), v) then p.Unknown() else s.cells(v))
    case ClearAll => s.(cells := v => p.Unknown())
    case Slide(to) => SlideTo(p, num, s, to)
    case Fuse(to, rays, minId, maxId) =>
      if rays == [] then s
      else
        var s' := SlideTo(p, num, s, to);
        var w, touches := Window(s'.origin, num), Flat(rays);
        s'.(cells := v => if TouchesOf(touches, v) > 0
                          then Vote(p, s'.cells(v), HitsOf(touches, v) >= TouchesOf(touches, v) - HitsOf(touches, v),
                                    InBox(BoundTo(w, minId), BoundTo(w, maxId), v))
                          else s'.cells(v))
  }

  function After(p: MapParam, num: Idx, s: Sparse, ops: seq<MapOp>): Sparse
    decreases |ops|
  {
    if ops == [] then s else Next(p, num, After(p, num, s, ops[..|ops| - 1]), ops[|ops| - 1])
  }

  /** In the unbounded map, no obstacle in the window before and after the operation reaches a cell that enters. */
  ghost predicate EntersClear(p: MapParam, num: Idx, offsets: seq<Idx>, s: Sparse, op: MapOp) {
    var w, next := Window(s.origin, num), Window(Next(p, num, s, op).origin, num);
    forall u, v | w.Has(u) && s.cells(u) > p.minOcc && next.Has(u) && next.Has(v) && !w.Has(v) ::
      !Reaches(offsets, u, v)
  }

  ghost predicate RunEntersClear(p: MapParam, num: Idx, offsets: seq<Idx>, s: Sparse, ops: seq<MapOp>)
    decreases |ops|
  {
    ops == []
    || (var n := |ops| - 1;
        && RunEntersClear(p, num, offsets, s, ops[..n])
        && EntersClear(p, num, offsets, After(p, num, s, ops[..n]), ops[n]))
  }

  /** A fusion pass that keeps v in the window and the local range, and votes for it. */
  ghost predicate VotesFor(p: MapParam, num: Idx, s: Sparse, op: MapOp, v: Idx, hit: bool) {
    var w, w' := Window(s.origin, num), Window(Next(p, num, s, op).origin, num);
    && op.Fuse? && w.Has(v) && w'.Has(v) && InBox(BoundTo(w', op.minId), BoundTo(w', op.maxId), v)
    && TouchesOf(Flat(op.rays), v) > 0
    && (hit <==> HitsOf(Flat(op.rays), v) >= TouchesOf(Flat(op.rays), v) - HitsOf(Flat(op.rays), v))
  }

  ghost predicate AllVoteFor(p: MapParam, num: Idx, s: Sparse, ops: seq<MapOp>, v: Idx, hit: bool) {
    forall i | 0 <= i < |ops| :: VotesFor(p, num, After(p, num, s, ops[..i]), ops[i], v, hit)
  }

  /** Every operation votes for v, whose value is known, and hits and misses have opposite signs. */
  ghost predicate VotesCount(p: MapParam, num: Idx, s: Sparse, ops: seq<MapOp>, v: Idx, hit: bool) {
    && p.missLog < 0.0 < p.hitLog && p.clampMin <= s.cells(v) <= p.clampMax
    && AllVoteFor(p, num, s, ops, v, hit)
  }

  lemma PassFuses(p: MapParam, num: Idx, s: Sparse, op: MapOp, v: Idx, hit: bool)
    requires p.clampMin <= p.clampMax && VotesFor(p, num, s, op, v, hit)
    ensures Fused(p, s.cells(v), hit, true, Next(p, num, s, op).cells(v))
  {
    VoteFuses(p);
    NoRays();
    hide Fused, Vote, Flat, TouchesOf, HitsOf, InBox;
  }

  /** The value of a voxel after n votes one way. */
  function Steady(p: MapParam, c: real, hit: bool, n: nat): real {
    if hit then Least(p.clampMax, c + n as real * p.hitLog) else Greatest(p.clampMin, c + n as real * p.missLog)
  }

  /** After any number of passes that all vote the same way, a voxel has moved that many times, up to the clamp. */
  lemma {:induction false} VotesAddUp(p: MapParam, num: Idx, s: Sparse, ops: seq<MapOp>, v: Idx, hit: bool)
    requires p.missLog < 0.0 < p.hitLog && p.clampMin <= s.cells(v) <= p.clampMax
    requires AllVoteFor(p, num, s, ops, v, hit)
    ensures After(p, num, s, ops).cells(v) == Steady(p, s.cells(v), hit, |ops|)
    decreases |ops|
  {
    if ops == [] {
      NoVotes(p, s.cells(v), hit);
    } else {
      var n := |ops| - 1;
      var before := After(p, num, s, ops[..n]);
      hide AllVoteFor, VotesFor, Steady, Fused, Next;
      AllVoteForPrefix(p, num, s, ops, v, hit);
      VotesAddUp(p, num, s, ops[..n], v, hit);
      PassFuses(p, num, before, ops[n], v, hit);
      OneMoreVote(p, s.cells(v), hit, n, before.cells(v), After(p, num, s, ops).cells(v));
    }
  }

  lemma NoVotes(p: MapParam, c: real, hit: bool)
    requires p.clampMin <= c <= p.clampMax
    ensures Steady(p, c, hit, 0) == c
  {
  }

  lemma AllVoteForPrefix(p: MapParam, num: Idx, s: Sparse, ops: seq<MapOp>, v: Idx, hit: bool)
    requires AllVoteFor(p, num, s, ops, v, hit) && ops != []
    ensures AllVoteFor(p, num, s, ops[..|ops| - 1], v, hit)
    ensures VotesFor(p, num, After(p, num, s, ops[..|ops| - 1]), ops[|ops| - 1], v, hit)
  {
    hide VotesFor;
    var first := ops[..|ops| - 1];
    forall i | 0 <= i < |first|
      ensures VotesFor(p, num, After(p, num, s, first[..i]), first[i], v, hit)
    {
      assert first[..i] == ops[..i];
    }
  }

  lemma OneMoreVote(p: MapParam, c: real, hit: bool, n: nat, before: real, after: real)
    requires p.missLog < 0.0 < p.hitLog && p.clampMin <= c <= p.clampMax
    requires before == Steady(p, c, hit, n) && Fused(p, before, hit, true, after)
    ensures after == Steady(p, c, hit, n + 1)
  {
    var r := n as real;
    assert (n + 1) as real * p.hitLog == r * p.hitLog + p.hitLog;
    assert (n + 1) as real * p.missLog == r * p.missLog + p.missLog;
    assert 0.0 <= r * p.hitLog;
    assert r * p.missLog == -(r * -p.missLog) && 0.0 <= r * -p.missLog;
  }

  /** As many passes as it takes from one end of the clamp range to the other. */
  function PassesNeeded(p: MapParam, hit: bool): nat
    requires p.missLog < 0.0 < p.hitLog && p.clampMin <= p.clampMax
  {
    var n := Ceil((p.clampMax - p.clampMin) / (if hit then p.hitLog else -p.missLog));
    if n < 0 then 0 else n
  }

  /** So a voxel that is hit in every pass becomes occupied after finitely many, and one that is missed free. */
  lemma VotesDecide(p: MapParam, num: Idx, s: Sparse, ops: seq<MapOp>, v: Idx, hit: bool)
    requires p.missLog < 0.0 < p.hitLog && p.clampMin <= s.cells(v) <= p.clampMax
    requires AllVoteFor(p, num, s, ops, v, hit) && PassesNeeded(p, hit) <= |ops|
    ensures After(p, num, s, ops).cells(v) == if hit then p.clampMax else p.clampMin
    ensures p.clampMin <= p.minOcc < p.clampMax ==> (After(p, num, s, ops).cells(v) > p.minOcc <==> hit)
  {
    hide AllVoteFor, After, Steady;
    VotesAddUp(p, num, s, ops, v, hit);
    SteadyEnds(p, s.cells(v), hit, |ops|);
  }

  lemma SteadyEnds(p: MapParam, c: real, hit: bool, n: nat)
    requires p.missLog < 0.0 < p.hitLog && p.clampMin <= c <= p.clampMax && PassesNeeded(p, hit) <= n
    ensures Steady(p, c, hit, n) == if hit then p.clampMax else p.clampMin
  {
    EnoughPasses(p.clampMax - p.clampMin, if hit then p.hitLog else -p.missLog, n);
    assert n as real * p.missLog == -(n as real * -p.missLog);
    hide Ceil;
  }

  lemma EnoughPasses(range: real, step: real, n: nat)
    requires 0.0 < step && 0.0 <= range && Ceil(range / step) <= n
    ensures range <= n as real * step
  {
    var q := range / step;
    assert q <= n as real;
    assert q * step == range;
    assert 0.0 <= (n as real - q) * step;
  }

  /** The map slides when enabled and the shift reaches the threshold on some axis. */
  predicate Slides(p: MapParam, w: Window, newOrigin: Idx) {
    var d := Minus(newOrigin, w.origin);
    p.slidingEnabled && !(Abs(d.x) < p.slideThreshold && Abs(d.y) < p.slideThreshold && Abs(d.z) < p.slideThreshold)
  }

  /** Occupied cells whose address is not among those already retracted. */
  /** Less than n cells apart on every axis. */
  predicate Near(a: Idx, b: Idx, n: int) {
    -n < a.x - b.x < n && -n < a.y - b.y < n && -n < a.z - b.z < n
  }

  ghost function Remaining(w: Window, obst: set<Idx>, addrs: seq<int>): set<Idx>
    requires Sized(w.num)
  {
    set u | u in obst && Address(w.num, u) !in addrs
  }

  lemma RemainingStep(w: Window, obst: set<Idx>, mask: seq<bool>, addrs: seq<int>, i: nat)
    requires Sized(w.num) && Listed(mask, addrs) && |mask| == Volume(w.num) && i < |addrs|
    requires forall u | u in obst :: w.Has(u)
    ensures var id := Global(w, addrs[i]);
            && Remaining(w, obst, addrs[..i + 1]) == Remaining(w, obst, addrs[..i]) - {id}
            && (id in obst ==> id in Remaining(w, obst, addrs[..i]))
            && (id !in obst ==> Remaining(w, obst, addrs[..i + 1]) == Remaining(w, obst, addrs[..i]))
  {
    hide Address, Global;
    var id := Global(w, addrs[i]);
    CellOfAddress(w, addrs[i]);
    assert addrs[..i + 1] == addrs[..i] + [addrs[i]];
    forall u | u in obst
      ensures Address(w.num, u) == addrs[i] <==> u == id
    {
      AddressOfCell(w, u);
    }
  }

  lemma RemainingSurvives(w: Window, next: Window, obst: set<Idx>, mask: seq<bool>, addrs: seq<int>)
    requires SmallShift(w, next) && ClearMask(w, next, mask) && Listed(mask, addrs)
    requires forall u | u in obst :: w.Has(u)
    ensures Remaining(w, obst, addrs) == Survivors(obst, next)
  {
    hide Address, Cleared;
    forall u | u in obst
      ensures Address(w.num, u) in addrs <==> !next.Has(u)
    {
      AddressOfCell(w, u);
      ClearedIsLeaving(w, next, u);
    }
  }

  function Coord(v: Idx, dim: nat): int {
    if dim == 0 then v.x else if dim == 1 then v.y else v.z
  }

  /** Local index c along dim, a along the next axis, b along the one after. */
  function FromCoords(dim: nat, c: int, a: int, b: int): Idx {
    if dim == 0 then Idx(c, a, b) else if dim == 1 then Idx(b, c, a) else Idx(a, b, c)
  }

  predicate Before(dim: nat, a: int, b: int, l: Idx) {
    Coord(l, (dim + 1) % 3) < a || (Coord(l, (dim + 1) % 3) == a && Coord(l, (dim + 2) % 3) < b)
  }

  /** The marked addresses, listed once each. */
  ghost predicate Listed(mask: seq<bool>, addrs: seq<int>) {
    && (forall i | 0 <= i < |mask| :: mask[i] <==> i in addrs)
    && (forall k | 0 <= k < |addrs| :: 0 <= addrs[k] < |mask|)
    && (forall i, j | 0 <= i < j < |addrs| :: addrs[i] != addrs[j])
  }

  lemma AxisClearedStep(lo: int, n: int, up: bool, k: int, l: int)
    requires n > 0 && 0 <= k < n
    ensures AxisCleared(lo, n, if up then k + 1 else -(k + 1), l)
       <==> AxisCleared(lo, n, if up then k else -k, l) || l == LocalIndex(if up then lo + k else lo + n - 1 - k, n)
  {
    hide LocalIndex;
    var g := if up then lo + k else lo + n - 1 - k;
    var s0, s1 := if up then k else -k, if up then k + 1 else -(k + 1);
    assert Leaving(lo, n, s1, g);
    forall h
      ensures Leaving(lo, n, s1, h) <==> Leaving(lo, n, s0, h) || h == g
    {
    }
  }

  function Clip(a: int, lo: int, hi: int): int {
    var m := if a < hi then a else hi;
    if m > lo then m else lo
  }

  predicate InBox(lo: Idx, hi: Idx, v: Idx) {
    lo.x <= v.x <= hi.x && lo.y <= v.y <= hi.y && lo.z <= v.z <= hi.z
  }

  lemma SplitVolume(num: Idx)
    requires Sized(num)
    ensures Volume(num) > 0
  {
    TimesMonotone(1, num.y, num.z);
    TimesMonotone(1, num.x, Times(num.y, num.z));
  }

  // ---------- the inflation offsets ----------

  function Ceil(r: real): int { -((-r).Floor) }

  /** The cylinder of rebuildInflationOffsets, with the comparison of norms squared. */
  predicate InCylinder(resolution: real, radius: real, up: int, down: int, o: Idx) {
    var step := Ceil(radius / (if resolution == 0.0 then 1.0 else resolution));
    && -step <= o.x <= step && -step <= o.y <= step && -down <= o.z <= up
    && InDisc(resolution, radius, o.x, o.y)
  }

  predicate InDisc(resolution: real, radius: real, x: int, y: int) {
    var (x', y') := (x as real * resolution, y as real * resolution);
    x' * x' + y' * y' < radius * radius
  }

  predicate LexBefore(a: Idx, b: Idx) {
    a.x < b.x || (a.x == b.x && (a.y < b.y || (a.y == b.y && a.z < b.z)))
  }

  /** The offsets are exactly the cells of the cylinder, each once. */
  method RebuildInflationOffsets(resolution: real, cylinderRadius: real, zUp: real, zDown: real)
    returns (offsets: seq<Idx>)
    requires resolution > 0.0
    ensures Distinct(offsets)
    ensures var radius := if 0.0 < cylinderRadius then cylinderRadius else 0.0;
            forall o :: o in offsets
                <==> InCylinder(resolution, radius, Ceil(zUp / resolution), Ceil(zDown / resolution), o)
  {
    hide InDisc;
    var radius := if 0.0 < cylinderRadius then cylinderRadius else 0.0;
    var step, up, down := Ceil(radius / resolution), Ceil(zUp / resolution), Ceil(zDown / resolution);
    offsets := [];
    var x := -step;
    while x <= step
      invariant Enumerates(resolution, radius, up, down, Idx(x, -step, -down), offsets)
      decreases step - x
    {
      var y := -step;
      while y <= step
        invariant -step <= y && Enumerates(resolution, radius, up, down, Idx(x, y, -down), offsets)
        decreases step - y
      {
        if InDisc(resolution, radius, x, y) {
          var z := -down;
          while z <= up
            invariant -down <= z && Enumerates(resolution, radius, up, down, Idx(x, y, z), offsets)
            decreases up - z
          {
            offsets := offsets + [Idx(x, y, z)];
            z := z + 1;
          }
        }
        y := y + 1;
      }
      x := x + 1;
    }
  }

  /** The cells of the cylinder before position `at` of the enumeration, in order. */
  ghost predicate Enumerates(resolution: real, radius: real, up: int, down: int, at: Idx, offsets: seq<Idx>) {
    && (forall o :: o in offsets <==> InCylinder(resolution, radius, up, down, o) && LexBefore(o, at))
    && (forall i, j | 0 <= i < j < |offsets| :: LexBefore(offsets[i], offsets[j]))
  }
}
