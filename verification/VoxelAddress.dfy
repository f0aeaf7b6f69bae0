/**
 Addresses of the circular voxel buffer (grid_map.h, grid_map.cpp): a window of the unbounded grid and
 the buffer hold the same cells, one for one, wherever the window stands.
 */
module VoxelAddress {
  import opened Modular

  datatype Idx = Idx(x: int, y: int, z: int)

  function Plus(a: Idx, b: Idx): Idx { Idx(a.x + b.x, a.y + b.y, a.z + b.z) }
  function Minus(a: Idx, b: Idx): Idx { Idx(a.x - b.x, a.y - b.y, a.z - b.z) }

  /** Remainder of truncating division: it has the sign of the dividend. */
  function TruncMod(a: int, n: int): int
    requires n > 0
  {
    if a >= 0 then a % n else -((-a) % n)
  }

  function LocalIndex(id: int, n: int): int
    requires n > 0
  {
    var r := TruncMod(id, n);
    if r < 0 then r + n else r
  }

  /** The corrected remainder is the floored one: it only depends on the class of id modulo n. */
  lemma LocalIndexIsResidue(id: int, n: int)
    requires n > 0
    ensures LocalIndex(id, n) == id % n
    ensures 0 <= LocalIndex(id, n) < n
  {
    if id < 0 {
      var m := -id;
      var q, r := m / n, m % n;
      assert m == q * n + r;
      if r == 0 {
        assert id == Times(-q, n) + 0 by { assert (-q) * n == -(q * n); }
        QuotientUnique(id, -q, n, 0);
      } else {
        assert id == Times(-q - 1, n) + (n - r) by { assert (-q - 1) * n == -(q * n) - n; }
        QuotientUnique(id, -q - 1, n, n - r);
      }
    }
  }

  /** Moving k < n cells along an axis moves the local index by k around the ring. */
  lemma LocalIndexStep(lo: int, k: int, n: int)
    requires n > 0 && 0 <= k < n
    ensures var l := LocalIndex(lo, n);
            LocalIndex(lo + k, n) == if l + k < n then l + k else l + k - n
  {
    LocalIndexIsResidue(lo, n);
    LocalIndexIsResidue(lo + k, n);
    hide LocalIndex;
    ResidueStep(lo, k, n);
  }

  // ---------- one axis ----------

  /** hashIdToGlobalIndex on one axis: the cell of [lo, lo + n) with local index l. */
  function GlobalIndex(lo: int, l: int, n: int): int
    requires n > 0
  {
    var dist := l - LocalIndex(lo, n);
    lo + (if dist < 0 then dist + n else dist)
  }

  lemma AxisInverse(lo: int, id: int, n: int)
    requires n > 0 && lo <= id < lo + n
    ensures 0 <= LocalIndex(id, n) < n
    ensures GlobalIndex(lo, LocalIndex(id, n), n) == id
  {
    LocalIndexIsResidue(lo, n);
    LocalIndexIsResidue(id, n);
    LocalIndexStep(lo, id - lo, n);
  }

  lemma AxisOnto(lo: int, l: int, n: int)
    requires n > 0 && 0 <= l < n
    ensures lo <= GlobalIndex(lo, l, n) < lo + n
    ensures LocalIndex(GlobalIndex(lo, l, n), n) == l
  {
    LocalIndexIsResidue(lo, n);
    var id := GlobalIndex(lo, l, n);
    LocalIndexStep(lo, id - lo, n);
  }

  // ---------- the window and the buffer ----------

  predicate Sized(num: Idx) {
    num.x > 0 && num.y > 0 && num.z > 0
  }

  function Volume(num: Idx): int { Times(num.x, Times(num.y, num.z)) }

  /** updateMapBoundaryFromIndex: the window around an origin cell. */
  datatype Window = Window(origin: Idx, num: Idx) {
    function Lo(): Idx { Idx(origin.x - num.x / 2, origin.y - num.y / 2, origin.z - num.z / 2) }
    function Hi(): Idx { Idx(Lo().x + num.x - 1, Lo().y + num.y - 1, Lo().z + num.z - 1) }

    /** isInMap(idx) */
    predicate Has(v: Idx) {
      && Lo().x <= v.x <= Hi().x
      && Lo().y <= v.y <= Hi().y
      && Lo().z <= v.z <= Hi().z
    }
  }

  /** toAddressLocal */
  function Flatten(num: Idx, x: int, y: int, z: int): int {
    Times(x, Times(num.y, num.z)) + Times(y, num.z) + z
  }

  /** toAddress: it does not depend on where the window stands. */
  function Address(num: Idx, v: Idx): int
    requires Sized(num)
  {
    Flatten(num, LocalIndex(v.x, num.x), LocalIndex(v.y, num.y), LocalIndex(v.z, num.z))
  }

  /** The three local indices of an address, as hashIdToGlobalIndex splits it. */
  function Split(num: Idx, addr: int): Idx
    requires Sized(num)
  {
    var area := Times(num.y, num.z);
    var x := if area == 0 then 0 else addr / area;
    var y := (addr - Times(x, area)) / num.z;
    Idx(x, y, addr - Times(x, area) - Times(y, num.z))
  }

  /** hashIdToGlobalIndex */
  function Global(w: Window, addr: int): Idx
    requires Sized(w.num)
  {
    var l := Split(w.num, addr);
    Idx(GlobalIndex(w.Lo().x, l.x, w.num.x), GlobalIndex(w.Lo().y, l.y, w.num.y), GlobalIndex(w.Lo().z, l.z, w.num.z))
  }

  /** Local indices in range and addresses in range are the same thing. */
  lemma FlattenSplit(num: Idx, x: int, y: int, z: int)
    requires Sized(num) && 0 <= x < num.x && 0 <= y < num.y && 0 <= z < num.z
    ensures 0 <= Flatten(num, x, y, z) < Volume(num)
    ensures Split(num, Flatten(num, x, y, z)) == Idx(x, y, z)
  {
    var area := Times(num.y, num.z);
    TimesBounds(y, num.y, num.z);
    var rest := Times(y, num.z) + z;
    assert 0 <= rest < area;
    TimesBounds(x, num.x, area);
    QuotientUnique(Flatten(num, x, y, z), x, area, rest);
    QuotientUnique(rest, y, num.z, z);
  }

  lemma SplitFlatten(num: Idx, addr: int)
    requires Sized(num) && 0 <= addr < Volume(num)
    ensures var l := Split(num, addr);
            0 <= l.x < num.x && 0 <= l.y < num.y && 0 <= l.z < num.z && Flatten(num, l.x, l.y, l.z) == addr
  {
    var area := Times(num.y, num.z);
    TimesMonotone(1, num.y, num.z);
    QuotientInRange(addr, num.x, area);
    QuotientInRange(addr - Times(addr / area, area), num.y, num.z);
  }

  /** Every cell of the window has its own address in the buffer, and Global finds the cell again. */
  lemma AddressOfCell(w: Window, v: Idx)
    requires Sized(w.num) && w.Has(v)
    ensures 0 <= Address(w.num, v) < Volume(w.num)
    ensures Global(w, Address(w.num, v)) == v
  {
    AxisInverse(w.Lo().x, v.x, w.num.x);
    AxisInverse(w.Lo().y, v.y, w.num.y);
    AxisInverse(w.Lo().z, v.z, w.num.z);
    FlattenSplit(w.num, LocalIndex(v.x, w.num.x), LocalIndex(v.y, w.num.y), LocalIndex(v.z, w.num.z));
  }

  /** Every address of the buffer belongs to a cell of the window. */
  lemma CellOfAddress(w: Window, addr: int)
    requires Sized(w.num) && 0 <= addr < Volume(w.num)
    ensures w.Has(Global(w, addr))
    ensures Address(w.num, Global(w, addr)) == addr
  {
    SplitFlatten(w.num, addr);
    var l := Split(w.num, addr);
    AxisOnto(w.Lo().x, l.x, w.num.x);
    AxisOnto(w.Lo().y, l.y, w.num.y);
    AxisOnto(w.Lo().z, l.z, w.num.z);
  }

  /** Two cells of one window never share an address. */
  lemma AddressInjective(w: Window, u: Idx, v: Idx)
    requires Sized(w.num) && w.Has(u) && w.Has(v) && Address(w.num, u) == Address(w.num, v)
    ensures u == v
  {
    AddressOfCell(w, u);
    AddressOfCell(w, v);
  }
}
