/**
 Quotients, remainders and positions around a ring, over the integers.
 */
module Modular {
  /** A product as a named term, so that equal factors give equal products. */
  function Times(a: int, b: int): int { a * b }

  lemma QuotientUnique(a: int, q: int, n: int, r: int)
    requires n > 0 && a == Times(q, n) + r && 0 <= r < n
    ensures a / n == q && a % n == r
  {
    var q' := a / n;
    assert a == q' * n + a % n;
    if q' < q {
      assert (q - q') * n >= n by { MulAtLeast(q - q', n); }
    } else if q < q' {
      assert (q' - q) * n >= n by { MulAtLeast(q' - q, n); }
    }
  }

  lemma QuotientRemainder(a: int, n: int)
    requires n > 0
    ensures a == Times(a / n, n) + a % n && 0 <= a % n < n
    ensures Times(a / n + 1, n) == Times(a / n, n) + n
  {
  }

  lemma ResidueStep(a: int, k: int, n: int)
    requires n > 0 && 0 <= k < n
    ensures (a + k) % n == if a % n + k < n then a % n + k else a % n + k - n
  {
    QuotientRemainder(a, n);
    hide Times;
    if a % n + k < n {
      QuotientUnique(a + k, a / n, n, a % n + k);
    } else {
      QuotientUnique(a + k, a / n + 1, n, a % n + k - n);
    }
  }

  lemma MulAtLeast(a: int, n: int)
    requires a >= 1 && n > 0
    ensures a * n >= n
  {
    assert (a - 1) * n >= 0;
  }

  lemma TimesMonotone(a: int, n: int, b: int)
    requires a <= n && 0 <= b
    ensures Times(a, b) <= Times(n, b)
  {
    assert (n - a) * b >= 0;
    assert (n - a) * b == n * b - a * b;
  }

  lemma TimesBounds(a: int, n: int, b: int)
    requires 0 <= a < n && 0 < b
    ensures 0 <= Times(a, b) && Times(a, b) + b <= Times(n, b)
  {
    TimesMonotone(0, a, b);
    TimesMonotone(a + 1, n, b);
    assert Times(a + 1, b) == Times(a, b) + b;
  }

  lemma QuotientInRange(a: int, n: int, d: int)
    requires d > 0 && 0 <= a < Times(n, d)
    ensures 0 <= a / d < n && a == Times(a / d, d) + a % d
  {
    var q := a / d;
    assert a == q * d + a % d;
    if q < 0 {
      TimesMonotone(q, -1, d);
    } else if q >= n {
      TimesMonotone(n, q, d);
    }
  }

  lemma ModOnce(a: int, m: int)
    requires 0 < m && 0 <= a < 2 * m
    ensures a % m == if a < m then a else a - m
  {
    if a >= m {
      assert a == m + (a - m);
      assert (m + (a - m)) % m == (a - m) % m;
    }
  }

  /** The slot of the k-th element of a stream through a ring of n slots. */
  function Slot(k: nat, n: nat): (r: nat)
    requires n > 0
    ensures r < n
  {
    k % n
  }

  lemma SlotNext(k: nat, n: nat)
    requires n > 0
    ensures Slot(k + 1, n) == (Slot(k, n) + 1) % n
  {
    SlotPlus(k, 1, n);
  }

  lemma SlotPlus(k: nat, i: nat, n: nat)
    requires n > 0
    ensures Slot(k + i, n) == (Slot(k, n) + i) % n
  {
    var q, r := k / n, k % n;
    var q', r' := (r + i) / n, (r + i) % n;
    assert k == q * n + r && r + i == q' * n + r';
    assert (q + q') * n == q * n + q' * n;
    QuotientUnique(k + i, q + q', n, r');
  }

  /** Positions less than a full turn apart sit in different slots. */
  lemma SlotsDistinct(a: nat, b: nat, n: nat)
    requires a < b < a + n
    ensures Slot(a, n) != Slot(b, n)
  {
    var q, r := a / n, a % n;
    assert a == q * n + r;
    var d := b - a;
    if r + d < n {
      assert b == Times(q, n) + (r + d);
      QuotientUnique(b, q, n, r + d);
    } else {
      assert (q + 1) * n == q * n + n;
      assert b == Times(q + 1, n) + (r + d - n);
      QuotientUnique(b, q + 1, n, r + d - n);
    }
  }
}
