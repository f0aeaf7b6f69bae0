/**
 What a slide clears: the cells of the old window that the new one does not have, and why the rest of
 the buffer already is the rest of the new window.
 */
module SlideWindow {
  import opened VoxelAddress
  import opened InflationCount

  function Abs(a: int): int { if a < 0 then -a else a }

  /** The cells of [lo, lo + n) that a shift of the axis leaves behind. */
  predicate Leaving(lo: int, n: int, shift: int, g: int) {
    lo <= g < lo + shift || lo + n + shift <= g < lo + n
  }

  /** The local indices of one axis that updateSlidingMap clears for a shift. */
  ghost predicate AxisCleared(lo: int, n: int, shift: int, l: int)
    requires n > 0
  {
    exists g :: Leaving(lo, n, shift, g) && LocalIndex(g, n) == l
  }

  lemma LocalIndexInjective(lo: int, n: int, a: int, b: int)
    requires n > 0 && lo <= a < lo + n && lo <= b < lo + n && LocalIndex(a, n) == LocalIndex(b, n)
    ensures a == b
  {
    AxisInverse(lo, a, n);
    AxisInverse(lo, b, n);
  }

  /** They are exactly those of the cells that leave the window along the axis. */
  lemma AxisClearedIsLeaving(lo: int, n: int, shift: int, g: int)
    requires n > 0 && Abs(shift) < n && lo <= g < lo + n
    ensures AxisCleared(lo, n, shift, LocalIndex(g, n)) <==> !(lo + shift <= g < lo + shift + n)
  {
    hide LocalIndex;
    if Leaving(lo, n, shift, g) {
      assert AxisCleared(lo, n, shift, LocalIndex(g, n));
    } else {
      forall h | Leaving(lo, n, shift, h) && LocalIndex(h, n) == LocalIndex(g, n)
        ensures false
      {
        LocalIndexInjective(lo, n, h, g);
      }
    }
  }

  function Shift(a: Window, b: Window): Idx { Minus(b.origin, a.origin) }

  predicate SmallShift(a: Window, b: Window) {
    && a.num == b.num && Sized(a.num)
    && Abs(Shift(a, b).x) < a.num.x && Abs(Shift(a, b).y) < a.num.y && Abs(Shift(a, b).z) < a.num.z
  }

  /** An address is cleared when one of its three local indices is. */
  ghost predicate Cleared(a: Window, b: Window, addr: int)
    requires SmallShift(a, b)
  {
    var l := Split(a.num, addr);
    || AxisCleared(a.Lo().x, a.num.x, Shift(a, b).x, l.x)
    || AxisCleared(a.Lo().y, a.num.y, Shift(a, b).y, l.y)
    || AxisCleared(a.Lo().z, a.num.z, Shift(a, b).z, l.z)
  }

  ghost predicate ClearMask(a: Window, b: Window, mask: seq<bool>)
    requires SmallShift(a, b)
  {
    && |mask| == Volume(a.num)
    && forall i | 0 <= i < |mask| :: mask[i] <==> Cleared(a, b, i)
  }

  /** A cell of the old window is cleared exactly when it leaves. */
  lemma ClearedIsLeaving(a: Window, b: Window, v: Idx)
    requires SmallShift(a, b) && a.Has(v)
    ensures Cleared(a, b, Address(a.num, v)) <==> !b.Has(v)
  {
    hide AxisCleared;
    AxisInverse(a.Lo().x, v.x, a.num.x);
    AxisInverse(a.Lo().y, v.y, a.num.y);
    AxisInverse(a.Lo().z, v.z, a.num.z);
    FlattenSplit(a.num, LocalIndex(v.x, a.num.x), LocalIndex(v.y, a.num.y), LocalIndex(v.z, a.num.z));
    AxisClearedIsLeaving(a.Lo().x, a.num.x, Shift(a, b).x, v.x);
    AxisClearedIsLeaving(a.Lo().y, a.num.y, Shift(a, b).y, v.y);
    AxisClearedIsLeaving(a.Lo().z, a.num.z, Shift(a, b).z, v.z);
  }

  /** Read through the mask: survivors are unmasked, and cells that enter take over cleared addresses. */
  lemma MaskByCell(a: Window, b: Window, mask: seq<bool>, v: Idx)
    requires SmallShift(a, b) && ClearMask(a, b, mask)
    ensures a.Has(v) ==> (Read(a.num, mask, v, false) <==> !b.Has(v))
    ensures b.Has(v) && !a.Has(v) ==> Read(a.num, mask, v, false)
  {
    hide Address, Global, Cleared;
    if a.Has(v) {
      AddressOfCell(a, v);
      ClearedIsLeaving(a, b, v);
    } else if b.Has(v) {
      AddressOfCell(b, v);
      var addr := Address(a.num, v);
      CellOfAddress(a, addr);
      var u := Global(a, addr);
      ClearedIsLeaving(a, b, u);
      if b.Has(u) {
        AddressInjective(b, u, v);
      }
    }
  }

  /** A jump by a whole window leaves no cell in common. */
  lemma JumpDisjoint(a: Window, b: Window, v: Idx)
    requires a.num == b.num && Sized(a.num) && !SmallShift(a, b)
    ensures !(a.Has(v) && b.Has(v))
  {
  }

  // ---------- the inflation counts across a slide ----------

  /** Buffer after the second clearing loop. */
  ghost predicate Wiped<T>(mask: seq<bool>, x: T, before: seq<T>, after: seq<T>) {
    && |before| == |after| == |mask|
    && forall i | 0 <= i < |mask| :: after[i] == if mask[i] then x else before[i]
  }

  lemma WipedRead<T>(a: Window, b: Window, mask: seq<bool>, x: T, before: seq<T>, after: seq<T>, v: Idx, d: T)
    requires SmallShift(a, b) && ClearMask(a, b, mask) && Wiped(mask, x, before, after) && b.Has(v)
    ensures Read(b.num, after, v, d) == if a.Has(v) then Read(a.num, before, v, d) else x
  {
    hide Address;
    MaskByCell(a, b, mask, v);
    AddressOfCell(b, v);
  }

  /** The occupied cells of the new window: the survivors, and all entering cells if unknown counts as occupied. */
  lemma OccupiedAfterSlide(a: Window, b: Window, mask: seq<bool>, unknown: real, threshold: real, before: seq<real>,
                           after: seq<real>)
    requires SmallShift(a, b) && ClearMask(a, b, mask) && Wiped(mask, unknown, before, after)
    ensures forall v | b.Has(v) ::
      v in Occupied(b, after, threshold) <==>
      if a.Has(v) then v in Occupied(a, before, threshold) else unknown > threshold
  {
    hide Read;
    forall v | b.Has(v)
      ensures Read(b.num, after, v, threshold) == if a.Has(v) then Read(a.num, before, v, threshold) else unknown
    {
      WipedRead(a, b, mask, unknown, before, after, v, threshold);
    }
  }

  /** Occupied cells that stay in the window. */
  ghost function Survivors(occ: set<Idx>, b: Window): set<Idx> {
    set u | u in occ && b.Has(u)
  }

  lemma BoundAfterSlide(a: Window, b: Window, offsets: seq<Idx>, mask: seq<bool>, unknown: real, threshold: real,
                        occBefore: seq<real>, occAfter: seq<real>, cntMid: seq<int>, cntAfter: seq<int>)
    requires SmallShift(a, b) && ClearMask(a, b, mask)
    requires Wiped(mask, unknown, occBefore, occAfter) && Wiped(mask, 0, cntMid, cntAfter)
    requires CountsBelow(a, offsets, Survivors(Occupied(a, occBefore, threshold), b), mask, cntMid)
    ensures CountsBelow(b, offsets, Occupied(b, occAfter, threshold), [], cntAfter)
  {
    hide Read;
    var kept, now := Survivors(Occupied(a, occBefore, threshold), b), Occupied(b, occAfter, threshold);
    OccupiedAfterSlide(a, b, mask, unknown, threshold, occBefore, occAfter);
    assert kept <= now;
    forall v | b.Has(v)
      ensures 0 <= Read(b.num, cntAfter, v, 0) <= Obstacles(offsets, now, v)
    {
      WipedRead(a, b, mask, 0, cntMid, cntAfter, v, 0);
      MaskByCell(a, b, mask, v);
      ObstaclesMonotone(offsets, kept, now, v);
    }
  }

  /** No occupied cell that stays reaches a cell that enters. */
  ghost predicate NoneReachesEntering(a: Window, b: Window, offsets: seq<Idx>, occ: set<Idx>) {
    forall u, v | u in occ && a.Has(u) && b.Has(u) && b.Has(v) && !a.Has(v) :: !Reaches(offsets, u, v)
  }

  /** Counts that were exact before the slide are exact after it if and only if that holds. */
  lemma ExactAfterSlide(a: Window, b: Window, offsets: seq<Idx>, mask: seq<bool>, unknown: real, threshold: real,
                        occBefore: seq<real>, occAfter: seq<real>, cntMid: seq<int>, cntAfter: seq<int>)
    requires SmallShift(a, b) && ClearMask(a, b, mask) && unknown <= threshold
    requires Wiped(mask, unknown, occBefore, occAfter) && Wiped(mask, 0, cntMid, cntAfter)
    requires CountsExact(a, offsets, Survivors(Occupied(a, occBefore, threshold), b), mask, cntMid)
    ensures CountsExact(b, offsets, Occupied(b, occAfter, threshold), [], cntAfter)
       <==> NoneReachesEntering(a, b, offsets, Occupied(a, occBefore, threshold))
  {
    hide Read, Reaches;
    var old_ := Occupied(a, occBefore, threshold);
    var kept, now := Survivors(old_, b), Occupied(b, occAfter, threshold);
    OccupiedAfterSlide(a, b, mask, unknown, threshold, occBefore, occAfter);
    assert kept == now;
    forall v | b.Has(v)
      ensures Read(b.num, cntAfter, v, 0) == if a.Has(v) then Obstacles(offsets, now, v) else 0
    {
      WipedRead(a, b, mask, 0, cntMid, cntAfter, v, 0);
      MaskByCell(a, b, mask, v);
    }
    forall v | b.Has(v)
      ensures Obstacles(offsets, now, v) == 0 <==> forall u | u in now :: !Reaches(offsets, u, v)
      ensures !Read(b.num, [], v, false)
    {
      NoObstacles(offsets, now, v);
      NoMask(b.num, v);
    }
    if CountsExact(b, offsets, now, [], cntAfter) {
      forall u, v | u in old_ && a.Has(u) && b.Has(u) && b.Has(v) && !a.Has(v)
        ensures !Reaches(offsets, u, v)
      {
        assert u in now;
        assert Read(b.num, cntAfter, v, 0) == 0;
      }
    }
    if NoneReachesEntering(a, b, offsets, old_) {
      forall v | b.Has(v)
        ensures Read(b.num, cntAfter, v, 0) == Obstacles(offsets, now, v)
      {
      }
    }
  }

  lemma NoMask(num: Idx, v: Idx)
    requires Sized(num)
    ensures !Read(num, [], v, false)
  {
  }
}
