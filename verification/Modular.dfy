/** Arithmetic of positions on a ring of n slots. */
module Modular {

  lemma Unique(x: int, q: int, r: int, n: int)
    requires n > 0 && x == q * n + r && 0 <= r < n
    ensures x % n == r && x / n == q
  {
    var q', r' := x / n, x % n;
    assert (q - q') * n == r' - r;
    if q - q' >= 1 {
      assert (q - q') * n >= n by { AtLeast(q - q', n); }
    } else if q' - q >= 1 {
      AtLeast(q' - q, n);
    }
  }

  lemma AtLeast(k: int, n: int)
    requires k >= 1 && n > 0
    ensures k * n >= n
  {
    assert k * n == (k - 1) * n + n;
  }

  /** Advancing a ring index by one, as the C code does it. */
  lemma Advance(x: int, n: int)
    requires n > 0
    ensures (x + 1) % n == (x % n + 1) % n == if x % n == n - 1 then 0 else x % n + 1
  {
    var q, r := x / n, x % n;
    if r + 1 < n {
      Unique(x + 1, q, r + 1, n);
      Unique(r + 1, 0, r + 1, n);
    } else {
      assert x + 1 == (q + 1) * n;
      Unique(x + 1, q + 1, 0, n);
      Unique(r + 1, 1, 0, n);
    }
  }

  /** Within one turn of the ring, different positions are different slots. */
  lemma Distinct(x: int, y: int, n: int)
    requires n > 0 && x < y < x + n
    ensures x % n != y % n
  {
    if x % n == y % n {
      var k := y / n - x / n;
      assert y - x == k * n;
      if k >= 1 { AtLeast(k, n); } else if k <= -1 { AtLeast(-k, n); }
    }
  }

  /** Every slot is met within one turn that starts at x. */
  lemma Covered(x: int, slot: int, n: int) returns (i: int)
    requires n > 0 && 0 <= slot < n
    ensures 0 <= i < n && (x + i) % n == slot
  {
    var q, r := x / n, x % n;
    if slot >= r {
      i := slot - r;
      Unique(x + i, q, slot, n);
    } else {
      i := slot - r + n;
      assert x + i == (q + 1) * n + slot;
      Unique(x + i, q + 1, slot, n);
    }
  }
}
