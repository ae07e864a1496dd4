/** Enqueueing many elements at once: how many blocks it takes, computed on words, and the
    loop that fills them once they have been allocated. */
module BulkEnqueue {
  import opened Blocks
  import opened Modular
  import C = Circular

  type Value = int     // opaque to the queue
  type Block = nat

  // ------------------------------------------------------------------ how many blocks

  /** The indices of start .. start + count - 1 that begin a block. */
  function Aligned(start: int, count: nat): nat
  {
    if count == 0 then 0
    else Aligned(start, count - 1) + if (start + count - 1) % BLOCK_SIZE == 0 then 1 else 0
  }

  lemma {:induction false} AlignedIs(start: int, count: nat)
    ensures Aligned(start, count) == (start + count - 1) / BLOCK_SIZE - (start - 1) / BLOCK_SIZE
    ensures Aligned(start, count) <= count
  {
    if count > 0 { AlignedIs(start, count - 1); }
  }

  /** `blockBaseDiff`: all of it on words with `word` values. */
  function BlockBaseDiff(start: int, count: nat, word: nat): int
    requires word > 0
  {
    Wrap(BlockBase(Wrap(start + count - 1, word)) - BlockBase(Wrap(start - 1, word)), word)
  }

  /** For every start, including zero and any wrapped one, and every count that leaves room
      in a word, the difference of the block bases counts the blocks to be allocated. */
  lemma BlocksNeeded(start: nat, count: nat, m: nat)
    requires m > 0 && BLOCK_SIZE * Aligned(start, count) < BLOCK_SIZE * m
    ensures var word := BLOCK_SIZE * m;
      BlockBaseDiff(Wrap(start, word), count, word) == BLOCK_SIZE * Aligned(start, count)
  {
    DiffOfBases(start, count, m, BLOCK_SIZE * m, Wrap(start, BLOCK_SIZE * m));
    AlignedIs(start, count);
    BaseGap(start + count - 1, start - 1);
  }

  lemma DiffOfBases(start: nat, count: nat, m: nat, word: nat, w: int)
    requires m > 0 && word == BLOCK_SIZE * m && w == Wrap(start, word)
    ensures BlockBaseDiff(w, count, word) == Wrap(BlockBase(start + count - 1) - BlockBase(start - 1), word)
  {
    var a, b := EndsOfWords(start, count, word, w);
    BasesOfWords(start + count - 1, start - 1, a, b, m, word);
  }

  lemma EndsOfWords(start: nat, count: nat, word: nat, w: int) returns (a: int, b: int)
    requires word > 0 && w == Wrap(start, word)
    ensures a == Wrap(start + count - 1, word) && b == Wrap(start - 1, word)
    ensures BlockBaseDiff(w, count, word) == Wrap(BlockBase(a) - BlockBase(b), word)
  {
    a, b := Wrap(w + count - 1, word), Wrap(w - 1, word);
    WrapAdd(start, count - 1, word);
    WrapAdd(start, -1, word);
  }

  lemma BasesOfWords(x: int, y: int, a: int, b: int, m: nat, word: nat)
    requires m > 0 && word == BLOCK_SIZE * m && a == Wrap(x, word) && b == Wrap(y, word)
    ensures Wrap(BlockBase(a) - BlockBase(b), word) == Wrap(BlockBase(x) - BlockBase(y), word)
  {
    C.WrapBase(x, m);
    C.WrapBase(y, m);
    C.WrapSub(BlockBase(x), BlockBase(y), word);
  }

  lemma BaseGap(x: int, y: int)
    ensures BlockBase(x) - BlockBase(y) == BLOCK_SIZE * (x / BLOCK_SIZE - y / BLOCK_SIZE)
  {}

  /** The first block start at or after an index. */
  function FirstAligned(start: int): int { BlockBase(start - 1) + BLOCK_SIZE }

  /** The i-th block start among the new elements' indices is one of them. */
  lemma AlignedIndex(start: nat, count: nat, i: nat)
    requires i < Aligned(start, count)
    ensures start <= FirstAligned(start) + BLOCK_SIZE * i < start + count
    ensures (FirstAligned(start) + BLOCK_SIZE * i) % BLOCK_SIZE == 0
  {
    AlignedIs(start, count);
  }

  /** The allocation loop, on words: a block for every block start among the new elements,
      indexed under that start. It fails exactly when the blocks on offer run out. */
  method AllocateBlocks(start: nat, count: nat, supply: seq<Block>, m: nat)
    returns (ok: bool, taken: seq<Block>, bases: seq<int>)
    requires m > 0 && BLOCK_SIZE * Aligned(start, count) < BLOCK_SIZE * m
    ensures ok <==> Aligned(start, count) <= |supply|
    ensures ok ==> taken == supply[..Aligned(start, count)] && |bases| == |taken|
    ensures ok ==> forall i | 0 <= i < |bases| ::
      bases[i] == Wrap(FirstAligned(start) + BLOCK_SIZE * i, BLOCK_SIZE * m)
  {
    var word := BLOCK_SIZE * m;
    BlocksNeeded(start, count, m);
    FirstBase(start, m, word);
    var diff := BlockBaseDiff(Wrap(start, word), count, word);
    var current := BlockBase(Wrap(Wrap(start, word) - 1, word));
    ok, taken, bases := TakeBlocks(diff, current, supply, word, Aligned(start, count), BlockBase(start - 1));
  }

  /** The loop itself: down by a block size in what is needed, up by one in the index. */
  method TakeBlocks(blockBaseDiff: int, tailIndex: int, supply: seq<Block>, word: nat, ghost need: nat, ghost base: int)
    returns (ok: bool, taken: seq<Block>, bases: seq<int>)
    requires word > 0 && blockBaseDiff == BLOCK_SIZE * need && tailIndex == Wrap(base, word)
    ensures ok <==> need <= |supply|
    ensures ok ==> taken == supply[..need] && |bases| == need
    ensures ok ==> forall i | 0 <= i < need :: bases[i] == Wrap(base + BLOCK_SIZE + BLOCK_SIZE * i, word)
  {
    var diff, current, k := blockBaseDiff, tailIndex, 0;
    ok, taken, bases := true, [], [];
    while diff > 0
      invariant 0 <= k <= need && k <= |supply| && diff == BLOCK_SIZE * (need - k) && |bases| == k
      invariant taken == supply[..k] && current == Wrap(base + BLOCK_SIZE * k, word)
      invariant forall i | 0 <= i < k :: bases[i] == Wrap(base + BLOCK_SIZE + BLOCK_SIZE * i, word)
      decreases diff
    {
      if k == |supply| {
        ok := false;
        return;
      }
      WrapAdd(base + BLOCK_SIZE * k, BLOCK_SIZE, word);
      diff := diff - BLOCK_SIZE;
      current := Wrap(current + BLOCK_SIZE, word);
      taken, bases, k := taken + [supply[k]], bases + [current], k + 1;
    }
  }

  /** The loop starts from the base of the block before the first new one. */
  lemma FirstBase(start: nat, m: nat, word: nat)
    requires m > 0 && word == BLOCK_SIZE * m
    ensures BlockBase(Wrap(Wrap(start, word) - 1, word)) == Wrap(BlockBase(start - 1), word)
  {
    WrapAdd(start, -1, word);
    C.WrapBase(start - 1, m);
  }

  // ------------------------------------------------------------------ the fill loop

  type Memory = map<Block, seq<Value>>

  /** The blocks that receive elements, in order: the current one unless a new one begins
      right at the start, then the newly allocated ones. */
  function Chain(start: nat, startBlock: Block, taken: seq<Block>): (r: seq<Block>)
    ensures |r| > 0
  {
    if start % BLOCK_SIZE == 0 && taken != [] then taken else [startBlock] + taken
  }

  ghost predicate Usable(mem: Memory, chain: seq<Block>)
  {
    && (forall k | 0 <= k < |chain| :: chain[k] in mem && |mem[chain[k]]| == BLOCK_SIZE)
    && forall i, j | 0 <= i < j < |chain| :: chain[i] != chain[j]
  }

  /** The index of offset o in the k-th block of the chain. */
  function IndexAt(start: nat, k: nat, o: nat): nat { BLOCK_SIZE * (start / BLOCK_SIZE + k) + o }

  /** Block k after the elements of index below `upTo` have been placed. */
  ghost predicate PlacedIn(mem: Memory, mem': Memory, start: nat, items: seq<Value>, chain: seq<Block>,
                           k: nat, upTo: nat)
    requires k < |chain| && upTo <= start + |items|
  {
    && chain[k] in mem && chain[k] in mem' && |mem[chain[k]]| == |mem'[chain[k]]| == BLOCK_SIZE
    && forall o: nat | o < BLOCK_SIZE :: mem'[chain[k]][o] ==
         if start <= IndexAt(start, k, o) < upTo then items[IndexAt(start, k, o) - start] else mem[chain[k]][o]
  }

  ghost predicate Placed(mem: Memory, mem': Memory, start: nat, items: seq<Value>, chain: seq<Block>, upTo: nat)
    requires upTo <= start + |items|
  {
    && mem'.Keys == mem.Keys
    && (forall b | b in mem && b !in chain :: mem'[b] == mem[b])
    && forall k: nat | k < |chain| :: PlacedIn(mem, mem', start, items, chain, k, upTo)
  }

  /** Block cells after the elements of index current .. stop - 1 have been placed. */
  ghost predicate Filled(cells: seq<Value>, cells': seq<Value>, current: nat, stop: nat, items: seq<Value>, start: nat)
    requires start <= current <= stop <= start + |items|
  {
    && |cells| == |cells'| == BLOCK_SIZE
    && var base := BlockBase(current);
    && forall o: nat | o < BLOCK_SIZE ::
         cells'[o] == if current <= base + o < stop then items[base + o - start] else cells[o]
  }

  /** The inner loop: elements up to `stop` go into one block. */
  method FillBlock(cells: seq<Value>, current: nat, stop: nat, items: seq<Value>, start: nat)
    returns (cells': seq<Value>)
    requires |cells| == BLOCK_SIZE && start <= current <= stop <= start + |items|
    requires stop <= BlockBase(current) + BLOCK_SIZE
    ensures Filled(cells, cells', current, stop, items, start)
  {
    cells' := cells;
    var i := current;
    while i != stop
      invariant current <= i <= stop && Filled(cells, cells', current, i, items, start)
      decreases stop - i
    {
      cells' := cells'[i % BLOCK_SIZE := items[i - start]];
      i := i + 1;
    }
  }

  /** Where the loop stands when it comes to block k. */
  function Current(start: nat, k: nat): nat { if k == 0 then start else IndexAt(start, k, 0) }

  /** The chain has exactly the blocks that the elements need: every block after the first
      begins with one of them, and the last one holds the rest. */
  lemma ChainFits(start: nat, count: nat, startBlock: Block, taken: seq<Block>, k: nat)
    requires |taken| == Aligned(start, count) && k < |Chain(start, startBlock, taken)|
    ensures k > 0 ==> IndexAt(start, k, 0) < start + count
    ensures start + count <= IndexAt(start, |Chain(start, startBlock, taken)|, 0)
  {
    AlignedIs(start, count);
  }

  method FillBlocks(start: nat, items: seq<Value>, startBlock: Block, taken: seq<Block>, mem: Memory)
    returns (mem': Memory, tailBlock: Block, tail: nat)
    requires |taken| == Aligned(start, |items|)
    requires items != [] ==> Usable(mem, Chain(start, startBlock, taken))
    ensures tail == start + |items| && tailBlock == if taken == [] then startBlock else taken[|taken| - 1]
    ensures items == [] ==> mem' == mem
    ensures items != [] ==> Placed(mem, mem', start, items, Chain(start, startBlock, taken), tail)
  {
    var chain := Chain(start, startBlock, taken);      // the links between the blocks
    var endBlock := if taken == [] then startBlock else taken[|taken| - 1];
    var newTail := start + |items|;
    mem', tail, tailBlock := mem, start, chain[0];
    var k := 0;
    while true
      invariant k < |chain| && tailBlock == chain[k] && tail == Current(start, k) <= newTail
      invariant items == [] ==> mem' == mem
      invariant items != [] ==> Placed(mem, mem', start, items, chain, tail)
      decreases |chain| - k
    {
      ChainFits(start, |items|, startBlock, taken, if k + 1 < |chain| then k + 1 else k);
      var stop := BlockBase(tail) + BLOCK_SIZE;
      if newTail < stop {
        stop := newTail;
      }
      if tail != stop {
        mem' := FillNext(mem, mem', start, items, chain, k, tailBlock, tail, stop);
        tail := stop;
      }
      if tailBlock == endBlock {
        EndIsLast(start, items, startBlock, taken, mem, k);
        break;
      }
      k := k + 1;
      tailBlock := chain[k];
    }
  }

  /** The block that ends the loop is the last of the chain. */
  lemma EndIsLast(start: nat, items: seq<Value>, startBlock: Block, taken: seq<Block>, mem: Memory, k: nat)
    requires var chain := Chain(start, startBlock, taken);
      && |taken| == Aligned(start, |items|) && (items != [] ==> Usable(mem, chain)) && k < |chain|
      && chain[k] == if taken == [] then startBlock else taken[|taken| - 1]
    ensures k == |Chain(start, startBlock, taken)| - 1
  {
    AlignedIs(start, |items|);
    var chain := Chain(start, startBlock, taken);
    assert chain[|chain| - 1] == if taken == [] then startBlock else taken[|taken| - 1];
  }

  /** One round of the loop. */
  method FillNext(ghost mem: Memory, now: Memory, start: nat, items: seq<Value>, ghost chain: seq<Block>, ghost k: nat,
                  tailBlock: Block, current: nat, stop: nat) returns (mem': Memory)
    requires k < |chain| && tailBlock == chain[k] && Usable(mem, chain)
    requires current == Current(start, k) <= stop <= start + |items| && Placed(mem, now, start, items, chain, current)
    requires stop == start + |items| || stop == BlockBase(current) + BLOCK_SIZE
    requires stop <= BlockBase(current) + BLOCK_SIZE
    ensures Placed(mem, mem', start, items, chain, stop)
  {
    assert PlacedIn(mem, now, start, items, chain, k, current);
    var cells := FillBlock(now[tailBlock], current, stop, items, start);
    mem' := now[tailBlock := cells];
    Advance(mem, now, mem', start, items, chain, k, current, stop);
  }

  /** Filling block k up to `stop` places exactly the elements up to `stop`. */
  lemma Advance(mem: Memory, before: Memory, after: Memory, start: nat, items: seq<Value>, chain: seq<Block>,
                k: nat, current: nat, stop: nat)
    requires k < |chain| && Usable(mem, chain) && current == Current(start, k) <= stop <= start + |items|
    requires stop == start + |items| || stop == BlockBase(current) + BLOCK_SIZE
    requires stop <= BlockBase(current) + BLOCK_SIZE
    requires Placed(mem, before, start, items, chain, current)
    requires chain[k] in before && chain[k] in after && after == before[chain[k] := after[chain[k]]]
    requires Filled(before[chain[k]], after[chain[k]], current, stop, items, start)
    ensures Placed(mem, after, start, items, chain, stop)
  {
    assert BlockBase(current) == IndexAt(start, k, 0);
    forall j: nat | j < |chain| ensures PlacedIn(mem, after, start, items, chain, j, stop) {
      assert PlacedIn(mem, before, start, items, chain, j, current);
      if j != k { assert chain[j] != chain[k]; }
    }
  }
}
