/** Positions on a circle of n slots, and the facts about remainders they rest on. */
module Modular {

  /** The slot reached from slot 0 by x steps around a circle of n slots: x mod n, which
      for a power-of-two n is the mask `x & (n - 1)` of the source. It is defined by going
      round so that proofs can treat it as a symbol; WrapIsMod says what it is. */
  function Wrap(x: int, n: nat): (r: int)
    requires n > 0
    ensures 0 <= r < n
    decreases if x < 0 then n - x else x
  {
    if x < 0 then Wrap(x + n, n) else if x < n then x else Wrap(x - n, n)
  }

  lemma {:induction false} WrapIsMod(x: int, n: nat)
    requires n > 0
    ensures Wrap(x, n) == x % n
    decreases if x < 0 then n - x else x
  {
    if x < 0 {
      WrapIsMod(x + n, n);
      Shift(x, n, 1);
    } else if x < n {
      ModSmall(x, n);
    } else {
      WrapIsMod(x - n, n);
      Shift(x, n, -1);
    }
  }

  /** Going on by b from the slot of a. */
  lemma WrapAdd(a: int, b: int, n: nat)
    requires n > 0
    ensures Wrap(Wrap(a, n) + b, n) == Wrap(a + b, n)
  {
    WrapIsMod(a, n);
    WrapIsMod(Wrap(a, n) + b, n);
    WrapIsMod(a + b, n);
    ModAdd(a, b, n);
  }

  lemma WrapNext(p: int, o: int, n: nat)
    requires n > 0
    ensures Wrap(Wrap(p - o, n) + 1, n) == Wrap(p + 1 - o, n)
  {
    WrapAdd(p - o, 1, n);
  }

  /** Any number of times around. */
  lemma WrapAround(x: int, n: nat, k: int)
    requires n > 0
    ensures Wrap(x + n * k, n) == Wrap(x, n)
  {
    WrapIsMod(x, n);
    WrapIsMod(x + n * k, n);
    Shift(x, n, k);
  }

  /** How many times around, and where. */
  lemma WrapParts(x: int, n: nat) returns (q: int)
    requires n > 0
    ensures x == n * q + Wrap(x, n)
  {
    WrapIsMod(x, n);
    q := x / n;
  }

  lemma WrapIs(x: int, n: nat, q: int, r: int)
    requires 0 <= r < n && x == n * q + r
    ensures Wrap(x, n) == r
  {
    WrapIsMod(x, n);
    RemainderIs(x, n, q, r);
  }

  lemma WrapPeriod(x: int, n: nat)
    requires n > 0
    ensures Wrap(x + n, n) == Wrap(x, n)
  {
    WrapIsMod(x, n);
    WrapIsMod(x + n, n);
    Shift(x, n, 1);
  }

  /** Sharing a slot on a circle twice as large means sharing one on this circle. */
  lemma WrapHalf(x: int, y: int, n: nat)
    requires n > 0 && Wrap(x, 2 * n) == Wrap(y, 2 * n)
    ensures Wrap(x, n) == Wrap(y, n)
  {
    WrapIsMod(x, 2 * n);
    WrapIsMod(y, 2 * n);
    WrapIsMod(x, n);
    WrapIsMod(y, n);
    ModMultiple(x, n, 2);
    ModMultiple(y, n, 2);
  }

  /** Fewer than n steps apart, only equal numbers share a slot. */
  lemma WrapInjective(a: int, b: int, n: nat)
    requires n > 0 && Wrap(a, n) == Wrap(b, n) && a - b < n && b - a < n
    ensures a == b
  {
    WrapIsMod(a, n);
    WrapIsMod(b, n);
    ModInjective(a, b, n);
  }

  /** A remainder is determined by any decomposition. */
  lemma RemainderIs(x: int, n: int, q: int, r: int)
    requires n > 0 && 0 <= r < n && x == n * q + r
    ensures x % n == r && x / n == q
  {
    var q' := x / n;
    var r' := x % n;
    assert x == n * q' + r';
    assert n * (q - q') == r' - r;
    if q > q' {
      Scale(n, q - q');
    } else if q < q' {
      assert n * (q' - q) == -(n * (q - q'));
      Scale(n, q' - q);
    }
  }

  lemma Scale(n: int, d: int)
    requires n > 0 && d >= 1
    ensures n * d >= n
  {
    assert n * d == n + n * (d - 1);
    assert n * (d - 1) >= 0;
  }

  lemma Shift(x: int, n: int, k: int)
    requires n > 0
    ensures (x + n * k) % n == x % n
  {
    assert x + n * k == n * (x / n + k) + x % n;
    RemainderIs(x + n * k, n, x / n + k, x % n);
  }

  /** Reducing one summand first changes nothing. */
  lemma ModAdd(a: int, b: int, n: int)
    requires n > 0
    ensures (a % n + b) % n == (a + b) % n
  {
    assert a % n + b == (a + b) + n * -(a / n);
    Shift(a + b, n, -(a / n));
  }

  /** Two numbers less than n apart with equal remainders are equal. */
  lemma ModInjective(a: int, b: int, n: int)
    requires n > 0 && a % n == b % n && -n < a - b < n
    ensures a == b
  {
    assert a - b == n * (a / n - b / n);
    if a / n > b / n {
      Scale(n, a / n - b / n);
    } else if a / n < b / n {
      assert n * (b / n - a / n) == -(n * (a / n - b / n));
      Scale(n, b / n - a / n);
    }
  }

  lemma ModSmall(a: int, n: int)
    requires 0 <= a < n
    ensures a % n == a
  {
    RemainderIs(a, n, 0, a);
  }

  /** Doubling a multiple of n keeps remainders congruent. */
  lemma ModMultiple(x: int, n: int, k: int)
    requires n > 0 && k > 0
    ensures n * k > 0 && (x % (n * k)) % n == x % n
  {
    Scale(n, k);
    var m := n * k;
    assert x % m == x + n * (k * -(x / m)) by {
      assert m * (x / m) == n * (k * (x / m));
    }
    Shift(x, n, k * -(x / m));
  }
}
