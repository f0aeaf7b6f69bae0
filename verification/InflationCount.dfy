/**
 What an inflation count counts: the occupied cells that reach a voxel through the inflation offsets.
 The buffers are read by voxel; one inflation update is a pointwise relation between two buffers.
 */
module InflationCount {
  import opened VoxelAddress

  /** A buffer read at a voxel; outside the buffer it reads d. */
  function Read<T>(num: Idx, buf: seq<T>, v: Idx, d: T): T
    requires Sized(num)
  {
    var a := Address(num, v);
    if 0 <= a < |buf| then buf[a] else d
  }

  lemma ReadCell<T>(w: Window, buf: seq<T>, v: Idx, d: T)
    requires Sized(w.num) && |buf| == Volume(w.num) && w.Has(v)
    ensures 0 <= Address(w.num, v) < |buf| && Read(w.num, buf, v, d) == buf[Address(w.num, v)]
  {
    AddressOfCell(w, v);
  }

  lemma ReadAfterWrite<T>(w: Window, buf: seq<T>, u: Idx, x: T, v: Idx, d: T)
    requires Sized(w.num) && |buf| == Volume(w.num) && w.Has(u) && w.Has(v)
    requires 0 <= Address(w.num, u) < |buf|
    ensures Read(w.num, buf[Address(w.num, u) := x], v, d) == if u == v then x else Read(w.num, buf, v, d)
  {
    hide Address;
    AddressOfCell(w, v);
    if u != v && Address(w.num, u) == Address(w.num, v) {
      AddressInjective(w, u, v);
    }
  }

  // ---------- counting obstacles ----------

  ghost predicate Distinct(offsets: seq<Idx>) {
    forall i, j | 0 <= i < j < |offsets| :: offsets[i] != offsets[j]
  }

  /** How many offsets lead to v from an occupied cell. */
  ghost function Obstacles(offsets: seq<Idx>, occ: set<Idx>, v: Idx): nat {
    if |offsets| == 0 then 0
    else
      var n := |offsets| - 1;
      Obstacles(offsets[..n], occ, v) + (if Minus(v, offsets[n]) in occ then 1 else 0)
  }

  predicate Reaches(offsets: seq<Idx>, u: Idx, v: Idx) {
    Minus(v, u) in offsets
  }

  ghost function Reaching(offsets: seq<Idx>, occ: set<Idx>, v: Idx): set<Idx> {
    set u | u in occ && Reaches(offsets, u, v)
  }

  lemma ReachesSplit(offsets: seq<Idx>, u: Idx, v: Idx)
    requires |offsets| > 0
    ensures var n := |offsets| - 1;
            Reaches(offsets, u, v) <==> Reaches(offsets[..n], u, v) || u == Minus(v, offsets[n])
  {
    var n := |offsets| - 1;
    assert offsets == offsets[..n] + [offsets[n]];
  }

  /** With distinct offsets that is the number of occupied cells that reach v. */
  lemma {:induction false} ObstaclesIsCardinality(offsets: seq<Idx>, occ: set<Idx>, v: Idx)
    requires Distinct(offsets)
    ensures Obstacles(offsets, occ, v) == |Reaching(offsets, occ, v)|
    decreases |offsets|
  {
    if |offsets| > 0 {
      var n := |offsets| - 1;
      var u := Minus(v, offsets[n]);
      ObstaclesIsCardinality(offsets[..n], occ, v);
      var before, after := Reaching(offsets[..n], occ, v), Reaching(offsets, occ, v);
      assert !Reaches(offsets[..n], u, v);
      forall c | c in occ
        ensures c in after <==> c in before || c == u
      {
        ReachesSplit(offsets, c, v);
      }
      if u in occ {
        assert after == before + {u};
      } else {
        assert after == before;
      }
    } else {
      assert Reaching(offsets, occ, v) == {};
    }
  }

  lemma {:induction false} ObstaclesRemove(offsets: seq<Idx>, occ: set<Idx>, u: Idx, v: Idx)
    requires Distinct(offsets) && u in occ
    ensures Obstacles(offsets, occ, v) == Obstacles(offsets, occ - {u}, v) + (if Reaches(offsets, u, v) then 1 else 0)
    decreases |offsets|
  {
    if |offsets| > 0 {
      var n := |offsets| - 1;
      ObstaclesRemove(offsets[..n], occ, u, v);
      assert offsets == offsets[..n] + [offsets[n]];
      assert Minus(v, offsets[n]) == u <==> Minus(v, u) == offsets[n];
    }
  }

  lemma {:induction false} ObstaclesMonotone(offsets: seq<Idx>, occ: set<Idx>, occ': set<Idx>, v: Idx)
    requires occ <= occ'
    ensures Obstacles(offsets, occ, v) <= Obstacles(offsets, occ', v)
    decreases |offsets|
  {
    if |offsets| > 0 {
      ObstaclesMonotone(offsets[..|offsets| - 1], occ, occ', v);
    }
  }

  lemma {:induction false} NoObstacles(offsets: seq<Idx>, occ: set<Idx>, v: Idx)
    ensures Obstacles(offsets, occ, v) == 0 <==> forall u | u in occ :: !Reaches(offsets, u, v)
    decreases |offsets|
  {
    if |offsets| > 0 {
      var n := |offsets| - 1;
      NoObstacles(offsets[..n], occ, v);
      assert offsets == offsets[..n] + [offsets[n]];
      var u := Minus(v, offsets[n]);
      assert Reaches(offsets, u, v);
    }
  }

  // ---------- the occupied cells of a window ----------

  ghost function Cells(w: Window): (cells: set<Idx>)
    ensures forall v :: v in cells <==> w.Has(v)
  {
    set x, y, z | w.Lo().x <= x <= w.Hi().x && w.Lo().y <= y <= w.Hi().y && w.Lo().z <= z <= w.Hi().z :: Idx(x, y, z)
  }

  ghost function Occupied(w: Window, occ: seq<real>, threshold: real): (s: set<Idx>)
    requires Sized(w.num)
    ensures forall v :: v in s <==> w.Has(v) && Read(w.num, occ, v, threshold) > threshold
  {
    set v | v in Cells(w) && Read(w.num, occ, v, threshold) > threshold
  }

  lemma OccupiedAfterWrite(w: Window, occ: seq<real>, threshold: real, u: Idx, x: real)
    requires Sized(w.num) && |occ| == Volume(w.num) && w.Has(u) && 0 <= Address(w.num, u) < |occ|
    ensures Occupied(w, occ[Address(w.num, u) := x], threshold)
         == if x > threshold then Occupied(w, occ, threshold) + {u} else Occupied(w, occ, threshold) - {u}
  {
    hide Address, Read;
    forall v | w.Has(v)
      ensures Read(w.num, occ[Address(w.num, u) := x], v, threshold) == if u == v then x
              else Read(w.num, occ, v, threshold)
    {
      ReadAfterWrite(w, occ, u, x, v, threshold);
    }
  }

  // ---------- one update of the layer ----------

  /** One inflation update: every cell in reach, inside the window and not masked, moves by delta down to zero. */
  ghost predicate LayerUpdated(w: Window, offsets: seq<Idx>, id: Idx, delta: int, mask: seq<bool>,
                               before: seq<int>, after: seq<int>)
    requires Sized(w.num)
  {
    && |before| == |after| == Volume(w.num)
    && forall v | w.Has(v) ::
         Read(w.num, after, v, 0) ==
           if Reaches(offsets, id, v) && !Read(w.num, mask, v, false)
           then AtLeastZero(Read(w.num, before, v, 0) + delta)
           else Read(w.num, before, v, 0)
  }

  function AtLeastZero(c: int): int { if c < 0 then 0 else c }

  /** Every unmasked count is between zero and the number of obstacles in reach. */
  ghost predicate CountsBelow(w: Window, offsets: seq<Idx>, occ: set<Idx>, mask: seq<bool>, cnt: seq<int>)
    requires Sized(w.num)
  {
    && |cnt| == Volume(w.num)
    && forall v | w.Has(v) && !Read(w.num, mask, v, false) ::
         0 <= Read(w.num, cnt, v, 0) <= Obstacles(offsets, occ, v)
  }

  ghost predicate CountsExact(w: Window, offsets: seq<Idx>, occ: set<Idx>, mask: seq<bool>, cnt: seq<int>)
    requires Sized(w.num)
  {
    && |cnt| == Volume(w.num)
    && forall v | w.Has(v) && !Read(w.num, mask, v, false) :: Read(w.num, cnt, v, 0) == Obstacles(offsets, occ, v)
  }

  /** Raising a new obstacle by one keeps the bound, and exactness. */
  lemma RaiseKeepsCounts(w: Window, offsets: seq<Idx>, occ: set<Idx>, id: Idx, mask: seq<bool>, before: seq<int>,
                         after: seq<int>)
    requires Sized(w.num) && Distinct(offsets) && id !in occ
    requires LayerUpdated(w, offsets, id, 1, mask, before, after)
    ensures CountsBelow(w, offsets, occ, mask, before) ==> CountsBelow(w, offsets, occ + {id}, mask, after)
    ensures CountsExact(w, offsets, occ, mask, before) ==> CountsExact(w, offsets, occ + {id}, mask, after)
  {
    hide Read, Reaches;
    assert occ + {id} - {id} == occ;
    forall v | w.Has(v)
      ensures Obstacles(offsets, occ + {id}, v)
              == Obstacles(offsets, occ, v) + (if Reaches(offsets, id, v) then 1 else 0)
    {
      ObstaclesRemove(offsets, occ + {id}, id, v);
    }
  }

  /** Lowering for a removed obstacle keeps the bound, even where the clamp at zero fires, and exactness. */
  lemma LowerKeepsCounts(w: Window, offsets: seq<Idx>, occ: set<Idx>, id: Idx, mask: seq<bool>, before: seq<int>,
                         after: seq<int>)
    requires Sized(w.num) && Distinct(offsets) && id in occ
    requires LayerUpdated(w, offsets, id, -1, mask, before, after)
    ensures CountsBelow(w, offsets, occ, mask, before) ==> CountsBelow(w, offsets, occ - {id}, mask, after)
    ensures CountsExact(w, offsets, occ, mask, before) ==> CountsExact(w, offsets, occ - {id}, mask, after)
  {
    hide Read, Reaches;
    forall v | w.Has(v)
      ensures Obstacles(offsets, occ, v)
              == Obstacles(offsets, occ - {id}, v) + (if Reaches(offsets, id, v) then 1 else 0)
    {
      ObstaclesRemove(offsets, occ, id, v);
    }
  }

  /** A non-zero count below its bound has an obstacle behind it. */
  lemma InflatedHasObstacle(w: Window, offsets: seq<Idx>, occ: set<Idx>, cnt: seq<int>, v: Idx)
    requires Sized(w.num) && CountsBelow(w, offsets, occ, [], cnt)
    requires w.Has(v) && Read(w.num, cnt, v, 0) > 0
    ensures exists u :: u in occ && Reaches(offsets, u, v)
  {
    NoObstacles(offsets, occ, v);
    assert !Read(w.num, [], v, false);
  }
}
