/** Machine words against unbounded counters. The queue's indices are unsigned words that
    wrap around; the other modules count without bound. Here the word operations of the
    source are shown to do on wrapped indices what is done there on the indices
    themselves, and exactly when. */
module Circular {
  import opened Blocks
  import opened Modular

  // ------------------------------------------------------------------ comparison

  /** `circular_less_than` on words of a type with 2 * half values. */
  predicate CircularLess(a: int, b: int, half: nat)
    requires half > 0
  { Wrap(a - b, 2 * half) > half }

  /** Subtracting words is subtracting counters. */
  lemma WrapSub(x: int, y: int, n: nat)
    requires n > 0
    ensures Wrap(Wrap(x, n) - Wrap(y, n), n) == Wrap(x - y, n)
  {
    WrapAdd(x, -Wrap(y, n), n);
    var q := WrapParts(y, n);
    WrapAround(x - y, n, q);
    assert x - Wrap(y, n) == x - y + n * q;
  }

  /** Less than a whole cycle apart, the comparison is that of the counters exactly when
      they are less than half a cycle apart, or half a cycle with the larger one first. */
  lemma CircularLessExact(x: int, y: int, half: int)
    requires half > 0 && -2 * half < x - y < 2 * half
    ensures (CircularLess(Wrap(x, 2 * half), Wrap(y, 2 * half), half) <==> x < y) <==> -half < x - y <= half
  {
    WrapSub(x, y, 2 * half);
    var d := x - y;
    if d < 0 {
      assert Wrap(d, 2 * half) == Wrap(d + 2 * half, 2 * half) == d + 2 * half;
    }
  }

  // ------------------------------------------------------------------ block bases and slots

  /** The value of a word read as a two's complement number. */
  function Signed(a: int, half: nat): int { if a >= half then a - 2 * half else a }

  /** Division as in C, towards zero: what remains has the sign of the dividend. */
  function TruncDiv(a: int, b: int): (q: int)
    requires b > 0
    ensures -b < a - b * q < b && (a >= 0 ==> a - b * q >= 0) && (a <= 0 ==> a - b * q <= 0)
  { if a >= 0 then a / b else -((-a) / b) }

  /** Clearing the low bits of a word. */
  lemma WrapBase(x: int, m: nat)
    requires m > 0
    ensures BlockBase(Wrap(x, BLOCK_SIZE * m)) == Wrap(BlockBase(x), BLOCK_SIZE * m)
  {
    var n := BLOCK_SIZE * m;
    var q := WrapParts(x, n);
    var r := Wrap(x, n);
    Regroup(m, q);
    Shift(r, BLOCK_SIZE, m * q);
    WrapIs(BlockBase(x), n, q, BlockBase(r));
  }

  lemma Regroup(m: int, q: int)
    ensures (BLOCK_SIZE * m) * q == BLOCK_SIZE * (m * q)
  {}

  /** The offset of one block base from another in blocks, as the lookup computes it. */
  function WordOffset(base: int, tailBase: int, half: nat): int
    requires half > 0
  { Wrap(TruncDiv(Signed(Wrap(base - tailBase, 2 * half), half), BLOCK_SIZE), 2 * half) }

  /** The slot selected by the lookup: word addition, then the mask for n slots. */
  function WordSlot(q: int, index: int, tailBase: int, half: nat, n: nat): int
    requires half > 0 && n > 0
  { Wrap(Wrap(q + WordOffset(BlockBase(index), tailBase, half), 2 * half), n) }

  lemma WrapCoarse(x: int, n: nat, k: nat)
    requires n > 0 && k > 0
    ensures n * k > 0 && Wrap(Wrap(x, n * k), n) == Wrap(x, n)
  {
    ModMultiple(x, n, k);
    WrapIsMod(x, n * k);
    WrapIsMod(Wrap(x, n * k), n);
    WrapIsMod(x, n);
  }

  /** A multiple of the block size, reduced to a word and read back with its sign, is off
      by whole cycles only, and dividing it is exact. */
  lemma SignedOffset(d: int, m: nat, half: nat) returns (c: int, j: int)
    requires m > 0 && half == BLOCK_SIZE * m && d % BLOCK_SIZE == 0
    ensures TruncDiv(Signed(Wrap(d, 2 * half), half), BLOCK_SIZE) == d / BLOCK_SIZE + c && c == (2 * m) * j
  {
    var w := Wrap(d, 2 * half);
    var q := WrapParts(d, 2 * half);
    j := if w >= half then -q - 1 else -q;
    c := (2 * m) * j;
    SignedIs(d, w, m, q, j);
    ExactDivision(d, c);
  }

  lemma ExactDivision(d: int, c: int)
    requires d % BLOCK_SIZE == 0
    ensures TruncDiv(d + BLOCK_SIZE * c, BLOCK_SIZE) == d / BLOCK_SIZE + c
  {}

  lemma SignedIs(d: int, w: int, m: int, c: int, j: int)
    requires m > 0 && d == (2 * (BLOCK_SIZE * m)) * c + w
    requires j == if w >= BLOCK_SIZE * m then -c - 1 else -c
    ensures Signed(w, BLOCK_SIZE * m) == d + BLOCK_SIZE * ((2 * m) * j)
  {
    assert BLOCK_SIZE * ((2 * m) * -c) == -((2 * (BLOCK_SIZE * m)) * c);
    assert BLOCK_SIZE * ((2 * m) * (-c - 1)) == BLOCK_SIZE * ((2 * m) * -c) - 2 * (BLOCK_SIZE * m);
  }

  /** For every index and tail base, however far apart and wherever the words wrap, the
      lookup on words selects the slot that the lookup on unbounded indices selects. The
      word type holds 2 * m blocks, and n, the number of slots, divides m. */
  lemma SlotAgrees(q: int, index: nat, tailBase: int, n: nat, m: nat, half: nat)
    requires n > 0 && m > 0 && Wrap(m, n) == 0 && half == BLOCK_SIZE * m && tailBase % BLOCK_SIZE == 0
    ensures WordSlot(q, Wrap(index, 2 * half), Wrap(tailBase, 2 * half), half, n) == LookupSlot(q, tailBase, index, n)
  {
    var d := BlockBase(index) - tailBase;
    BasesApart(index, tailBase);
    var a, c := Parts(q, index, tailBase, d, n, m, half);
    SlotWith(q, index, tailBase, d, a, half, n, c);
  }

  /** Each part of the lookup is right, up to a c that does not change the slot. */
  lemma Parts(q: int, index: nat, tailBase: int, d: int, n: nat, m: nat, half: nat)
    returns (a: int, c: int)
    requires n > 0 && m > 0 && Wrap(m, n) == 0 && half == BLOCK_SIZE * m
    requires d == BlockBase(index) - tailBase && d % BLOCK_SIZE == 0
    ensures Wrap(BlockBase(Wrap(index, 2 * half)) - Wrap(tailBase, 2 * half), 2 * half) == Wrap(d, 2 * half)
    ensures LookupSlot(q, tailBase, index, n) == Wrap(q + a, n)
    ensures TruncDiv(Signed(Wrap(d, 2 * half), half), BLOCK_SIZE) == a + c
    ensures Wrap(Wrap(q + a + c, 2 * half), n) == Wrap(q + a, n)
  {
    a := d / BLOCK_SIZE;
    WordBase(index, tailBase, m, half);
    var j;
    c, j := SignedOffset(d, m, half);
    var k := WrapParts(m, n);
    assert k <= 0 ==> n * k <= 0;
    SlotOfOffset(q + a, n, k, m, half, c, j);
  }

  lemma BasesApart(index: int, tailBase: int)
    requires tailBase % BLOCK_SIZE == 0
    ensures (BlockBase(index) - tailBase) % BLOCK_SIZE == 0
  {}

  lemma SlotWith(q: int, index: nat, tailBase: int, d: int, a: int, half: nat, n: nat, c: int)
    requires half > 0 && n > 0 && LookupSlot(q, tailBase, index, n) == Wrap(q + a, n)
    requires Wrap(BlockBase(Wrap(index, 2 * half)) - Wrap(tailBase, 2 * half), 2 * half) == Wrap(d, 2 * half)
    requires TruncDiv(Signed(Wrap(d, 2 * half), half), BLOCK_SIZE) == a + c
    requires Wrap(Wrap(q + a + c, 2 * half), n) == Wrap(q + a, n)
    ensures WordSlot(q, Wrap(index, 2 * half), Wrap(tailBase, 2 * half), half, n) == LookupSlot(q, tailBase, index, n)
  {
    SlotFrom(q, BlockBase(Wrap(index, 2 * half)), Wrap(tailBase, 2 * half), Wrap(d, 2 * half), a, half, n, c);
  }

  /** The word difference of the bases is the difference of the bases. */
  lemma WordBase(index: nat, tailBase: int, m: nat, half: nat)
    requires m > 0 && half == BLOCK_SIZE * m
    ensures Wrap(BlockBase(Wrap(index, 2 * half)) - Wrap(tailBase, 2 * half), 2 * half)
         == Wrap(BlockBase(index) - tailBase, 2 * half)
  {
    assert BLOCK_SIZE * (2 * m) == 2 * half;
    WrapBase(index, 2 * m);
    WrapSub(BlockBase(index), tailBase, 2 * half);
  }

  lemma WordAdd(q: int, a: int, b: int, word: nat)
    requires word > 0
    ensures Wrap(q + Wrap(a + b, word), word) == Wrap(q + a + b, word)
  {
    WrapAdd(a + b, q, word);
  }

  /** The lookup on words, given that each of its parts is right up to whole circles c. */
  lemma SlotFrom(q: int, base: int, tailBase: int, w: int, a: int, half: nat, n: nat, c: int)
    requires half > 0 && n > 0 && Wrap(base - tailBase, 2 * half) == w
    requires TruncDiv(Signed(w, half), BLOCK_SIZE) == a + c && Wrap(Wrap(q + a + c, 2 * half), n) == Wrap(q + a, n)
    ensures Wrap(Wrap(q + WordOffset(base, tailBase, half), 2 * half), n) == Wrap(q + a, n)
  {
    WordAdd(q, a, c, 2 * half);
  }

  /** Whole circles make no difference to a slot. */
  lemma SlotOfOffset(x: int, n: nat, k: nat, m: nat, half: nat, c: int, j: int)
    requires n > 0 && k > 0 && m > 0 && m == n * k && half == BLOCK_SIZE * m && c == (2 * m) * j
    ensures Wrap(Wrap(x + c, 2 * half), n) == Wrap(x, n)
  {
    Circles(n, k, j);
    WrapCoarse(x + c, n, 2 * BLOCK_SIZE * k);
    WrapAround(x, n, 2 * k * j);
  }

  lemma Circles(n: nat, k: nat, j: int)
    ensures 2 * (BLOCK_SIZE * (n * k)) == n * (2 * BLOCK_SIZE * k)
    ensures (2 * (n * k)) * j == n * (2 * k * j)
  {
    assert n * (2 * BLOCK_SIZE * k) == 2 * BLOCK_SIZE * (n * k);
    assert n * (2 * k * j) == (n * (2 * k)) * j;
    assert n * (2 * k) == 2 * (n * k);
  }
}
