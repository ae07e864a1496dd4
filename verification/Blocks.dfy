/** Element indices, the blocks of 32 that hold them, and the slots of a circular index of
    blocks. Both kinds of producer work with these. */
module Blocks {
  import opened Modular

  const BLOCK_SIZE := 32

  function BlockBase(i: int): int { i - i % BLOCK_SIZE }

  /** How many blocks the indices below i take; the next block starts at that many sizes. */
  function Positions(i: nat): nat { (i + BLOCK_SIZE - 1) / BLOCK_SIZE }

  /** Where a claim that ends at `end` leaves the block of index i. */
  function BlockEnd(i: nat, end: nat): nat
  {
    if end < BlockBase(i) + BLOCK_SIZE then end else BlockBase(i) + BLOCK_SIZE
  }

  /** A consumer's lookup: signed block offset from a known slot, around the circle. */
  function LookupSlot(known: int, knownBase: int, i: nat, size: nat): int
    requires size > 0
  {
    Wrap(known + (BlockBase(i) - knownBase) / BLOCK_SIZE, size)
  }
}
