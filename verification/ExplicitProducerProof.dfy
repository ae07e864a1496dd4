/** The invariant of the explicit producer and what follows from it: through block reuse,
    new blocks and index doubling, a consumer's lookup always finds the block of its
    index, and reads the value that was enqueued at that index. */
module ExplicitProducerProof {
  import opened Blocks
  import opened Modular
  import opened ExplicitProducer
  import C = DequeueCounters

  /** Blocks are numbered by position: position p holds the indices 32p .. 32p+31.
      `ring` are the producer's blocks in order of position, the last being the tail
      block, at position k-1. Header j keeps position p in slot (p - origin[j]) mod size
      and knows the positions below hi[j]. */
  datatype Ghosts = Ghosts(ring: seq<Block>, k: nat, origin: seq<int>, hi: seq<int>)

  function Lo(g: Ghosts): int { g.k - |g.ring| }

  function Slot(p: int, origin: int, size: nat): int
    requires size > 0
  { Wrap(p - origin, size) }

  predicate Entering(pc: ProducerPc) { pc.PReset? || pc.PBase? || pc.PBlock? || pc.PFront? }

  /** Positions whose index entry has been published. */
  function Entered(s: State, g: Ghosts): int { if Entering(s.producer) then g.k - 1 else g.k }

  // ------------------------------------------------------------------ the invariant, in groups

  ghost predicate BlockMem(s: State, b: Block)
  {
    && b in s.next && b in s.elems && b in s.empty
    && |s.elems[b]| == BLOCK_SIZE == |s.empty[b]|
  }

  ghost predicate RingOk(s: State, g: Ghosts)
  {
    var n := |g.ring|;
    && n <= g.k && s.slotsUsed == n <= s.size && 0 < s.size
    && (n == 0 <==> g.k == 0) && (n == 0 <==> s.tailBlock.NoBlock?)
    && (s.headers == [] ==> n == 0)
    && (forall r, q | 0 <= r < q < n :: g.ring[r] != g.ring[q])
    && (forall r | 0 <= r < n :: BlockMem(s, g.ring[r]))
    && (forall r | 0 <= r < n - 1 :: s.next[g.ring[r]] == g.ring[r + 1])
    && (n > 0 ==> s.tailBlock == TailBlock(g.ring[n - 1]) && s.next[g.ring[n - 1]] == g.ring[0])
  }

  /** The flags found set so far: a set flag stands for a finished index, and stays set. */
  ghost predicate Scanned(s: State, g: Ghosts, f: nat)
  {
    f <= BLOCK_SIZE && forall i: nat | At(g, 0, BLOCK_SIZE - f) <= i < At(g, 0, BLOCK_SIZE) :: i in s.finished
  }

  ghost predicate TailOk(s: State, g: Ghosts)
  {
    match s.producer
    case PIdle => BLOCK_SIZE * (g.k - 1) < s.c.tail <= BLOCK_SIZE * g.k || s.c.tail == g.k == 0
    case PBoundary(_) => s.c.tail == BLOCK_SIZE * g.k
    case PScan(_, f) => s.c.tail == BLOCK_SIZE * g.k && g.ring != [] && Scanned(s, g, f)
    case PReset(_, f) => s.c.tail == BLOCK_SIZE * (g.k - 1) && s.headers != [] && f <= BLOCK_SIZE
    case PIndex(_) => s.c.tail == BLOCK_SIZE * g.k
    case PAlloc(_) => s.c.tail == BLOCK_SIZE * g.k && s.headers != [] && s.slotsUsed < s.size
    case PBase(_) => s.c.tail == BLOCK_SIZE * (g.k - 1) && s.headers != []
    case PBlock(_) => s.c.tail == BLOCK_SIZE * (g.k - 1) && s.headers != []
    case PFront(_) => s.c.tail == BLOCK_SIZE * (g.k - 1) && s.headers != []
    case PWrite(_) => BLOCK_SIZE * (g.k - 1) <= s.c.tail < BLOCK_SIZE * g.k
    case PPublish(_) => BLOCK_SIZE * (g.k - 1) <= s.c.tail < BLOCK_SIZE * g.k
  }

  /** Header j, slot by slot: what is written is congruent, what is live is right. */
  ghost predicate HeaderOk(s: State, g: Ghosts, j: nat)
    requires j < |s.headers| == |g.origin| == |g.hi|
  {
    var h := s.headers[j];
    var o := g.origin[j];
    && 0 < h.size == |h.entries|
    && 0 <= o <= Lo(g) && (o < g.hi[j] || o == g.hi[j] == 0) && g.hi[j] <= Entered(s, g)
    && g.hi[j] - Lo(g) <= h.size
    && (o < g.hi[j] ==> h.front == Slot(g.hi[j] - 1, o, h.size))
    && (forall f | 0 <= f < h.size && f < g.hi[j] - o :: Congruent(h, o, f))
    && (forall r | 0 <= r < |g.ring| && Lo(g) + r < g.hi[j] :: EntryOk(h, o, g, r))
  }

  ghost predicate Congruent(h: Header, o: int, f: int)
    requires 0 < h.size == |h.entries| && 0 <= f < h.size
  {
    h.entries[f].base % BLOCK_SIZE == 0 && Slot(h.entries[f].base / BLOCK_SIZE, o, h.size) == f
  }

  ghost predicate EntryOk(h: Header, o: int, g: Ghosts, r: int)
    requires 0 < h.size == |h.entries| && 0 <= r < |g.ring|
  {
    h.entries[Slot(Lo(g) + r, o, h.size)] == Entry(BLOCK_SIZE * (Lo(g) + r), g.ring[r])
  }

  ghost predicate IndexOk(s: State, g: Ghosts)
    requires RingOk(s, g)
  {
    && |s.headers| == |g.origin| == |g.hi|
    && (forall j: nat | j < |s.headers| :: HeaderOk(s, g, j))
    && (s.headers != [] ==>
          var last := |s.headers| - 1;
          && |s.headers[last].entries| == s.headers[last].size == s.size && g.hi[last] == Entered(s, g)
          && s.front == Slot(Entered(s, g), g.origin[last], s.size) < s.size
          && (s.producer.PFront? ==>
                g.ring != [] && s.headers[last].entries[s.front].block == g.ring[|g.ring| - 1])
          && (s.producer.PBlock? || s.producer.PFront? ==>
                s.headers[last].entries[s.front].base == s.c.tail))
    && (s.headers == [] ==> s.front == 0)
  }

  /** Index of element j of ring block r. */
  function At(g: Ghosts, r: int, j: int): int { BLOCK_SIZE * (Lo(g) + r) + j }

  ghost predicate ElemsOk(s: State, g: Ghosts)
    requires RingOk(s, g)
  {
    && |s.enqueued| == s.c.tail
    && (forall r, j | 0 <= r < |g.ring| && 0 <= j < BLOCK_SIZE :: ElemOk(s, g, r, j))
    && (s.producer.PPublish? ==>
          g.ring != [] && BlockMem(s, g.ring[|g.ring| - 1]) &&
          s.elems[g.ring[|g.ring| - 1]][s.c.tail % BLOCK_SIZE] == s.producer.v)
  }

  ghost predicate ElemOk(s: State, g: Ghosts, r: int, j: int)
    requires 0 <= r < |g.ring| <= g.k && 0 <= j < BLOCK_SIZE
    requires g.ring[r] in s.elems && |s.elems[g.ring[r]]| == BLOCK_SIZE && |s.enqueued| == s.c.tail
  {
    At(g, r, j) < s.c.tail ==> s.elems[g.ring[r]][j] == s.enqueued[At(g, r, j)]
  }

  ghost predicate FlagOk(s: State, g: Ghosts, r: int, f: int)
    requires 0 <= r < |g.ring| && g.ring[r] in s.empty && 0 <= f < BLOCK_SIZE == |s.empty[g.ring[r]]|
  {
    s.empty[g.ring[r]][f] == (At(g, r, BLOCK_SIZE - 1 - f) in s.finished || Stale(s.producer, |g.ring| - 1 - r, f))
  }

  /** A flag of the tail block, 0 from the end of the ring, that is still to be cleared. */
  predicate Stale(pc: ProducerPc, fromEnd: int, f: int) { pc.PReset? && fromEnd == 0 && pc.f <= f < BLOCK_SIZE }

  ghost predicate FlagsOk(s: State, g: Ghosts)
    requires RingOk(s, g)
  {
    && (forall r, f | 0 <= r < |g.ring| && 0 <= f < BLOCK_SIZE :: FlagOk(s, g, r, f))
    && (forall i | i in s.finished :: 0 <= i < s.c.head)
    && (forall i: nat | i < BLOCK_SIZE * Lo(g) :: i in s.finished)
  }

  ghost predicate Open(s: State, a: int, b: int) { forall i: nat | a <= i < b :: i !in s.finished }

  /** The reader holds header h, which knows every position of its claim. */
  ghost predicate Knows(s: State, g: Ghosts, h: nat, end: nat)
  {
    h < |s.headers| == |g.hi| && end <= BLOCK_SIZE * g.hi[h]
  }

  ghost predicate AtBlock(s: State, g: Ghosts, h: nat, slot: int, block: Block, i: nat)
  {
    && h < |s.headers| == |g.origin| && s.headers[h].size > 0
    && slot == Slot(i / BLOCK_SIZE, g.origin[h], s.headers[h].size)
    && 0 <= i / BLOCK_SIZE - Lo(g) < |g.ring| && block == g.ring[i / BLOCK_SIZE - Lo(g)]
  }

  /** A consumer that claimed nothing, having asked for nothing, looks up a block all the
      same; it stays in range, reads nothing and marks nothing. */
  ghost predicate EmptyOk(s: State, g: Ghosts, t: nat)
    requires t < |s.readers| == |s.c.threads| && s.c.threads[t].Reading?
  {
    var first := s.c.threads[t].first;
    match s.readers[t]
    case RNone => false
    case RStart => true
    case RFront(h) => h < |s.headers| == |g.hi| && g.hi[h] > 0
    case RBase(h, f) => h < |s.headers| && 0 <= f < s.headers[h].size == |s.headers[h].entries|
    case RBlock(h, slot, i) => h < |s.headers| && 0 <= slot < |s.headers[h].entries| && i == first
    case RRead(_, _, _, from, at) => from == at == first
    case RMark(_, _, _, from, to, left) => from == to == first && left == 0
  }

  ghost predicate ReaderOk(s: State, g: Ghosts, t: nat)
    requires t < |s.readers| == |s.c.threads|
  {
    if !s.c.threads[t].Reading? then s.readers[t].RNone?
    else if s.c.threads[t].count == 0 then EmptyOk(s, g, t)
    else
      var first, end := s.c.threads[t].first, C.ClaimEnd(s.c, t);
      match s.readers[t]
      case RNone => false
      case RStart => Open(s, first, end)
      case RFront(h) => Open(s, first, end) && Knows(s, g, h, end)
      case RBase(h, f) =>
        && Open(s, first, end) && Knows(s, g, h, end)
        && |g.origin| == |s.headers| && 0 <= f < s.headers[h].size && f < g.hi[h] - g.origin[h]
      case RBlock(h, slot, i) =>
        && first <= i < end && Open(s, i, end) && Knows(s, g, h, end) && (i == first || i % BLOCK_SIZE == 0)
        && |g.origin| == |s.headers| && s.headers[h].size > 0
        && slot == Slot(i / BLOCK_SIZE, g.origin[h], s.headers[h].size)
      case RRead(h, slot, block, from, at) =>
        && first <= from < end && from <= at <= BlockEnd(from, end) && Open(s, from, end)
        && Knows(s, g, h, end) && AtBlock(s, g, h, slot, block, from)
      case RMark(h, slot, block, from, to, left) =>
        && first <= from < end && to == BlockEnd(from, end) && left <= to - from
        && Open(s, from, from + left) && Open(s, to, end) && Knows(s, g, h, end)
        && |g.origin| == |s.headers| && s.headers[h].size > 0
        && slot == Slot(from / BLOCK_SIZE, g.origin[h], s.headers[h].size)
        && (left > 0 ==> AtBlock(s, g, h, slot, block, from))
  }

  ghost predicate ReadersOk(s: State, g: Ghosts)
  {
    && |s.readers| == |s.c.threads|
    && (forall t: nat | t < |s.readers| :: ReaderOk(s, g, t))
    && (forall i | i in s.read :: i < s.c.head && i < |s.enqueued| && s.read[i] == s.enqueued[i])
  }

  ghost predicate Inv(s: State, g: Ghosts)
  {
    && C.Safe(s.c) && RingOk(s, g) && TailOk(s, g) && IndexOk(s, g)
    && ElemsOk(s, g) && FlagsOk(s, g) && ReadersOk(s, g)
  }

  // ------------------------------------------------------------------ slots

  lemma SlotBack(p: int, o: int, d: int, size: nat)
    requires size > 0
    ensures Wrap(Slot(p, o, size) + d, size) == Slot(p + d, o, size)
  {
    WrapAdd(p - o, d, size);
  }

  // ------------------------------------------------------------------ what the groups imply

  lemma TailBelow(s: State, g: Ghosts)
    requires RingOk(s, g) && TailOk(s, g)
    ensures s.c.tail <= BLOCK_SIZE * Entered(s, g)
    ensures Entering(s.producer) ==> g.k > 0
  {}

  /** An index that is not finished lies in a live position. */
  lemma OpenIsLive(s: State, g: Ghosts, i: nat)
    requires RingOk(s, g) && FlagsOk(s, g) && i !in s.finished
    ensures i / BLOCK_SIZE >= Lo(g)
  {}

  // ------------------------------------------------------------------ consumer steps

  /** Only reader t moves. */
  lemma ReaderMove(s: State, g: Ghosts, t: nat, r: ReaderPc)
    requires Inv(s, g) && t < |s.readers| && ReaderOk(Go(s, t, r), g, t)
    ensures Inv(Go(s, t, r), g)
  {
    var s' := Go(s, t, r);
    RingFrame(s, g, s');
    MemFrame(s, g, s');
    forall u: nat | u < |s'.readers| ensures ReaderOk(s', g, u) {
      if u != t { ReaderFrame(s, g, u, s'); }
    }
  }

  ghost predicate SameMemory(s: State, s': State)
  {
    && s'.headers == s.headers && s'.next == s.next && s'.elems == s.elems && s'.empty == s.empty
    && s'.tailBlock == s.tailBlock && s'.slotsUsed == s.slotsUsed && s'.size == s.size && s'.front == s.front
    && s'.producer == s.producer && s'.enqueued == s.enqueued && s'.finished == s.finished
    && s'.c.tail == s.c.tail && s'.c.head >= s.c.head
  }

  lemma RingFrame(s: State, g: Ghosts, s': State)
    requires RingOk(s, g) && TailOk(s, g) && IndexOk(s, g) && SameMemory(s, s')
    ensures RingOk(s', g) && TailOk(s', g) && IndexOk(s', g)
  {
    assert forall r | 0 <= r < |g.ring| :: BlockMem(s, g.ring[r]) ==> BlockMem(s', g.ring[r]);
    forall j: nat | j < |s'.headers| ensures HeaderOk(s', g, j) {
      assert HeaderOk(s, g, j);
    }
  }

  lemma MemFrame(s: State, g: Ghosts, s': State)
    requires RingOk(s, g) && ElemsOk(s, g) && FlagsOk(s, g) && SameMemory(s, s') && RingOk(s', g)
    ensures ElemsOk(s', g) && FlagsOk(s', g)
  {
    forall r, j | 0 <= r < |g.ring| && 0 <= j < BLOCK_SIZE ensures ElemOk(s', g, r, j) {
      assert ElemOk(s, g, r, j);
    }
    forall r, f | 0 <= r < |g.ring| && 0 <= f < BLOCK_SIZE ensures FlagOk(s', g, r, f) {
      assert FlagOk(s, g, r, f);
    }
  }

  lemma ReaderFrame(s: State, g: Ghosts, u: nat, s': State)
    requires u < |s.readers| == |s'.readers| == |s.c.threads| == |s'.c.threads|
    requires s'.readers[u] == s.readers[u] && s'.c.threads[u] == s.c.threads[u]
    requires s'.headers == s.headers && s'.finished == s.finished && ReaderOk(s, g, u)
    ensures ReaderOk(s', g, u)
  {
    assert forall a, b | Open(s, a, b) :: Open(s', a, b);
  }

  lemma LookupKeeps(s: State, g: Ghosts, t: nat, s': State)
    requires Inv(s, g) && LookupStep(s, t, s')
    ensures Inv(s', g)
  {
    if s.c.threads[t].count == 0 {
      EmptyLookup(s, g, t, s');
      ReaderMove(s, g, t, s'.readers[t]);
    } else {
      ClaimKeeps(s, g, t, s');
    }
  }

  lemma ClaimKeeps(s: State, g: Ghosts, t: nat, s': State)
    requires Inv(s, g) && LookupStep(s, t, s') && Claims(s, t)
    ensures Inv(s', g)
  {
    match s.readers[t]
    case RStart => FirstKeeps(s, g, t);
    case RFront(h) => FrontKeeps(s, g, t, h);
    case RBase(h, f) => BaseKeeps(s, g, t, h, f);
    case RBlock(h, slot, i) => BlockKeeps(s, g, t, h, slot, i);
  }

  lemma FirstKeeps(s: State, g: Ghosts, t: nat)
    requires Inv(s, g) && Claims(s, t) && s.readers[t].RStart? && s.headers != []
    ensures Inv(Go(s, t, RFront(|s.headers| - 1)), g)
  {
    assert ReaderOk(s, g, t);
    C.ClaimBelowTail(s.c, t);
    TailBelow(s, g);
    ReaderMove(s, g, t, RFront(|s.headers| - 1));
  }

  ghost predicate Claims(s: State, t: nat)
  {
    t < |s.readers| == |s.c.threads| && s.c.threads[t].Reading? && s.c.threads[t].count > 0
  }

  lemma EmptyLookup(s: State, g: Ghosts, t: nat, s': State)
    requires Inv(s, g) && LookupStep(s, t, s') && s.c.threads[t].count == 0
    ensures s' == Go(s, t, s'.readers[t]) && ReaderOk(s', g, t)
  {
    assert ReaderOk(s, g, t);
    C.ClaimBelowTail(s.c, t);
    TailBelow(s, g);
    if s.readers[t].RFront? || s.readers[t].RBase? { assert HeaderOk(s, g, s.readers[t].h); }
  }

  lemma FrontKeeps(s: State, g: Ghosts, t: nat, h: nat)
    requires Inv(s, g) && Claims(s, t) && s.readers[t] == RFront(h)
    ensures h < |s.headers| && Inv(Go(s, t, RBase(h, s.headers[h].front)), g)
  {
    assert ReaderOk(s, g, t) && HeaderOk(s, g, h);
    C.ClaimBelowTail(s.c, t);
    var hd, o := s.headers[h], g.origin[h];
    OpenIsLive(s, g, s.c.threads[t].first);
    assert hd.front == Slot(g.hi[h] - 1, o, hd.size);
    ReaderMove(s, g, t, RBase(h, hd.front));
  }

  lemma BaseKeeps(s: State, g: Ghosts, t: nat, h: nat, f: int)
    requires Inv(s, g) && Claims(s, t) && s.readers[t] == RBase(h, f)
    ensures h < |s.headers| && 0 <= f < |s.headers[h].entries| && s.headers[h].size > 0
    ensures Inv(Go(s, t, RBlock(h, LookupSlot(f, s.headers[h].entries[f].base, s.c.threads[t].first,
                                              s.headers[h].size), s.c.threads[t].first)), g)
  {
    assert ReaderOk(s, g, t) && HeaderOk(s, g, h);
    C.ClaimBelowTail(s.c, t);
    var hd, o, first := s.headers[h], g.origin[h], s.c.threads[t].first;
    assert Congruent(hd, o, f);
    LookupFinds(f, hd.entries[f].base, first, o, hd.size);
    ReaderMove(s, g, t, RBlock(h, LookupSlot(f, hd.entries[f].base, first, hd.size), first));
  }

  /** From any entry that is congruent to its slot, the signed offset leads to the slot of
      the wanted position, whatever position that entry holds by now. */
  lemma LookupFinds(f: int, headBase: int, i: nat, o: int, size: nat)
    requires size > 0 && headBase % BLOCK_SIZE == 0 && Slot(headBase / BLOCK_SIZE, o, size) == f
    ensures LookupSlot(f, headBase, i, size) == Slot(i / BLOCK_SIZE, o, size)
  {
    assert (BlockBase(i) - headBase) / BLOCK_SIZE == i / BLOCK_SIZE - headBase / BLOCK_SIZE;
    SlotBack(headBase / BLOCK_SIZE, o, i / BLOCK_SIZE - headBase / BLOCK_SIZE, size);
  }

  lemma BlockKeeps(s: State, g: Ghosts, t: nat, h: nat, slot: int, i: nat)
    requires Inv(s, g) && Claims(s, t) && s.readers[t] == RBlock(h, slot, i)
    ensures h < |s.headers| && 0 <= slot < |s.headers[h].entries|
    ensures Inv(Go(s, t, RRead(h, slot, s.headers[h].entries[slot].block, i, i)), g)
  {
    assert ReaderOk(s, g, t);
    FindBlock(s, g, t, h, slot, i);
    ReaderMove(s, g, t, RRead(h, slot, s.headers[h].entries[slot].block, i, i));
  }

  /** The slot a reader computed holds the entry of its block. */
  lemma FindBlock(s: State, g: Ghosts, t: nat, h: nat, slot: int, i: nat)
    requires Inv(s, g) && Claims(s, t) && s.readers[t] == RBlock(h, slot, i)
    ensures h < |s.headers| && 0 <= slot < |s.headers[h].entries|
    ensures s.headers[h].entries[slot].base == BlockBase(i)
    ensures AtBlock(s, g, h, slot, s.headers[h].entries[slot].block, i)
  {
    assert ReaderOk(s, g, t) && HeaderOk(s, g, h);
    OpenIsLive(s, g, i);
    var hd, r := s.headers[h], i / BLOCK_SIZE - Lo(g);
    assert EntryOk(hd, g.origin[h], g, r);
    assert BLOCK_SIZE * (i / BLOCK_SIZE) == BlockBase(i);
  }

  lemma ReadKeeps(s: State, g: Ghosts, t: nat, s': State)
    requires Inv(s, g) && ReadStep(s, t, s')
    ensures Inv(s', g)
  {
    assert ReaderOk(s, g, t);
    var r := s.readers[t];
    ReadReader(s, g, t, s');
    ReaderMove(s, g, t, s'.readers[t]);
    if r.at < BlockEnd(r.from, C.ClaimEnd(s.c, t)) {
      ReadHistory(s, g, t, s');
      HistoryFrame(Go(s, t, s'.readers[t]), g, s');
    }
  }

  lemma ReadHistory(s: State, g: Ghosts, t: nat, s': State)
    requires Inv(s, g) && ReadStep(s, t, s')
    requires s.readers[t].at < BlockEnd(s.readers[t].from, C.ClaimEnd(s.c, t))
    ensures forall i | i in s'.read :: i < s.c.head && i < |s.enqueued| && s'.read[i] == s.enqueued[i]
  {
    ReadValue(s, g, t);
  }

  lemma ReadReader(s: State, g: Ghosts, t: nat, s': State)
    requires ReadStep(s, t, s') && ReaderOk(s, g, t)
    ensures ReaderOk(Go(s, t, s'.readers[t]), g, t)
  {}

  lemma HistoryFrame(s: State, g: Ghosts, s': State)
    requires Inv(s, g) && s' == s.(read := s'.read)
    requires forall i | i in s'.read :: i < s.c.head && i < |s.enqueued| && s'.read[i] == s.enqueued[i]
    ensures Inv(s', g)
  {
    RingFrame(s, g, s');
    MemFrame(s, g, s');
    forall u: nat | u < |s'.readers| ensures ReaderOk(s', g, u) {
      ReaderFrame(s, g, u, s');
    }
  }

  /** The element a reader is about to move out is the one enqueued at its index. */
  lemma ReadValue(s: State, g: Ghosts, t: nat)
    requires Inv(s, g) && t < |s.readers| && s.c.threads[t].Reading? && s.readers[t].RRead?
    requires s.readers[t].at < BlockEnd(s.readers[t].from, C.ClaimEnd(s.c, t))
    ensures var r := s.readers[t];
      && r.at < s.c.head && r.at < |s.enqueued|
      && r.block in s.elems && |s.elems[r.block]| == BLOCK_SIZE
      && s.elems[r.block][r.at % BLOCK_SIZE] == s.enqueued[r.at]
  {
    assert ReaderOk(s, g, t);
    C.ClaimBelowTail(s.c, t);
    var r := s.readers[t];
    var p := r.from / BLOCK_SIZE - Lo(g);
    assert BlockMem(s, g.ring[p]);
    assert r.at / BLOCK_SIZE == r.from / BLOCK_SIZE;
    assert At(g, p, r.at % BLOCK_SIZE) == r.at;
    assert ElemOk(s, g, p, r.at % BLOCK_SIZE);
  }

  /** One empty flag is set: the index is finished, and no other reader's. */
  lemma FlagKeeps(s: State, g: Ghosts, t: nat, s': State)
    requires Inv(s, g) && MarkStep(s, t, s') && s.readers[t].left > 0
    ensures Inv(s', g)
  {
    assert ReaderOk(s, g, t);
    C.ClaimBelowTail(s.c, t);
    var r := s.readers[t];
    var i := r.from + r.left - 1;
    var p := r.from / BLOCK_SIZE - Lo(g);
    assert i / BLOCK_SIZE == r.from / BLOCK_SIZE;
    assert BlockMem(s, g.ring[p]);
    FlagRing(s, g, t, s', p);
    FlagMem(s, g, t, s', i, p);
    forall u: nat | u < |s'.readers| ensures ReaderOk(s', g, u) {
      FlagReader(s, g, t, s', i, u);
    }
  }

  lemma FlagRing(s: State, g: Ghosts, t: nat, s': State, p: int)
    requires RingOk(s, g) && TailOk(s, g) && IndexOk(s, g)
    requires MarkStep(s, t, s') && s.readers[t].left > 0
    requires 0 <= p < |g.ring| && s.readers[t].block == g.ring[p]
    ensures RingOk(s', g) && TailOk(s', g) && IndexOk(s', g)
  {
    assert BlockMem(s, g.ring[p]);
    forall q | 0 <= q < |g.ring| ensures BlockMem(s', g.ring[q]) {
      assert BlockMem(s, g.ring[q]);
    }
    forall j: nat | j < |s'.headers| ensures HeaderOk(s', g, j) {
      assert HeaderOk(s, g, j);
    }
  }

  lemma FlagMem(s: State, g: Ghosts, t: nat, s': State, i: nat, p: int)
    requires RingOk(s, g) && ElemsOk(s, g) && FlagsOk(s, g) && RingOk(s', g)
    requires MarkStep(s, t, s') && s.readers[t].left > 0 && i == s.readers[t].from + s.readers[t].left - 1
    requires 0 <= p < |g.ring| && p == i / BLOCK_SIZE - Lo(g) && s.readers[t].block == g.ring[p]
    requires i < s.c.head
    ensures ElemsOk(s', g) && FlagsOk(s', g)
  {
    var f0 := BLOCK_SIZE - 1 - i % BLOCK_SIZE;
    assert At(g, p, BLOCK_SIZE - 1 - f0) == i;
    forall r, j | 0 <= r < |g.ring| && 0 <= j < BLOCK_SIZE ensures ElemOk(s', g, r, j) {
      assert ElemOk(s, g, r, j);
    }
    forall r, f | 0 <= r < |g.ring| && 0 <= f < BLOCK_SIZE ensures FlagOk(s', g, r, f) {
      assert FlagOk(s, g, r, f);
      assert At(g, r, BLOCK_SIZE - 1 - f) == i <==> r == p && f == f0;
    }
  }

  lemma FlagReader(s: State, g: Ghosts, t: nat, s': State, i: nat, u: nat)
    requires C.Safe(s.c) && ReadersOk(s, g) && MarkStep(s, t, s') && s.readers[t].left > 0
    requires i == s.readers[t].from + s.readers[t].left - 1 && u < |s.readers|
    ensures ReaderOk(s', g, u)
  {
    assert ReaderOk(s, g, u) && ReaderOk(s, g, t);
    if u != t {
      C.ClaimsApart(s.c, t, u);
      OtherReader(s, g, s', i, u);
    }
  }

  lemma OtherReader(s: State, g: Ghosts, s': State, i: nat, u: nat)
    requires u < |s.readers| == |s'.readers| == |s.c.threads| && s'.c == s.c && s'.headers == s.headers
    requires s'.finished == s.finished + {i} && s'.readers[u] == s.readers[u] && ReaderOk(s, g, u)
    requires s.c.threads[u].Reading? ==> i < s.c.threads[u].first || C.ClaimEnd(s.c, u) <= i
    ensures ReaderOk(s', g, u)
  {
    assert forall a, b | Open(s, a, b) && !(a <= i < b) :: Open(s', a, b);
  }

  lemma MarkKeeps(s: State, g: Ghosts, t: nat, s': State)
    requires Inv(s, g) && MarkStep(s, t, s') && C.Safe(s'.c)
    ensures Inv(s', g)
  {
    assert ReaderOk(s, g, t);
    var r := s.readers[t];
    if r.left > 0 {
      FlagKeeps(s, g, t, s');
    } else if r.to < C.ClaimEnd(s.c, t) {
      NextBlockKeeps(s, g, t, r);
    } else {
      DoneKeeps(s, g, t, s');
    }
  }

  lemma DoneKeeps(s: State, g: Ghosts, t: nat, s': State)
    requires Inv(s, g) && MarkStep(s, t, s') && C.Safe(s'.c)
    requires s.readers[t].left == 0 && s.readers[t].to >= C.ClaimEnd(s.c, t)
    ensures Inv(s', g)
  {
    C.ReadingEnds(s.c, t, s'.c);
    CounterMove(s, g, t, s');
  }

  lemma NextBlockKeeps(s: State, g: Ghosts, t: nat, r: ReaderPc)
    requires Inv(s, g) && t < |s.readers| && s.c.threads[t].Reading? && s.readers[t] == r
    requires r.RMark? && r.left == 0 && r.to < C.ClaimEnd(s.c, t)
    ensures r.h < |s.headers| && s.headers[r.h].size > 0
    ensures Inv(Go(s, t, RBlock(r.h, Wrap(r.slot + 1, s.headers[r.h].size), r.to)), g)
  {
    assert ReaderOk(s, g, t);
    assert r.to / BLOCK_SIZE == r.from / BLOCK_SIZE + 1;
    WrapNext(r.from / BLOCK_SIZE, g.origin[r.h], s.headers[r.h].size);
    ReaderMove(s, g, t, RBlock(r.h, Wrap(r.slot + 1, s.headers[r.h].size), r.to));
  }

  // ------------------------------------------------------------------ steps on the counters

  /** Thread t steps on the counters, from or to a claim or neither. */
  lemma CounterMove(s: State, g: Ghosts, t: nat, s': State)
    requires Inv(s, g) && t < |s.readers| && C.ThreadStep(s.c, t, s'.c) && C.Safe(s'.c)
    requires s' == Go(s, t, if s'.c.threads[t].Reading? then RStart else RNone).(c := s'.c)
    ensures Inv(s', g)
  {
    C.CounterFacts(s.c, t, s'.c);
    RingFrame(s, g, s');
    MemFrame(s, g, s');
    forall u: nat | u < |s'.readers| ensures ReaderOk(s', g, u) {
      if u != t { ReaderFrame(s, g, u, s'); }
    }
  }

  // ------------------------------------------------------------------ producer steps

  /** Headers and positions are only added, finished blocks leave at the front, and no
      flag changes. */
  ghost predicate Grows(s: State, g: Ghosts, s': State, g': Ghosts)
  {
    && |s.headers| == |g.origin| == |g.hi| <= |s'.headers| == |g'.origin| == |g'.hi|
    && (forall j | 0 <= j < |s.headers| ::
          && s'.headers[j].size == s.headers[j].size && |s'.headers[j].entries| == |s.headers[j].entries|
          && g'.origin[j] == g.origin[j] && g'.hi[j] >= g.hi[j])
    && 0 <= Lo(g) <= Lo(g') && g.k <= g'.k
    && (forall r | 0 <= r < |g'.ring| && Lo(g') + r < g.k :: g'.ring[r] == g.ring[Lo(g') + r - Lo(g)])
    && s'.c.threads == s.c.threads && s'.readers == s.readers && s'.finished == s.finished
  }

  lemma ReadersGrow(s: State, g: Ghosts, s': State, g': Ghosts)
    requires RingOk(s', g') && FlagsOk(s', g') && Grows(s, g, s', g') && ReadersOk(s, g)
    ensures forall t: nat | t < |s'.readers| :: ReaderOk(s', g', t)
  {
    forall t: nat | t < |s'.readers| ensures ReaderOk(s', g', t) {
      ReaderGrows(s, g, s', g', t);
    }
  }

  lemma ReaderGrows(s: State, g: Ghosts, s': State, g': Ghosts, t: nat)
    requires RingOk(s', g') && FlagsOk(s', g') && Grows(s, g, s', g')
    requires t < |s.readers| == |s.c.threads| && ReaderOk(s, g, t)
    ensures ReaderOk(s', g', t)
  {
    if Claims(s, t) { ClaimGrows(s, g, s', g', t); }
  }

  lemma ClaimGrows(s: State, g: Ghosts, s': State, g': Ghosts, t: nat)
    requires RingOk(s', g') && FlagsOk(s', g') && Grows(s, g, s', g') && Claims(s, t) && ReaderOk(s, g, t)
    ensures ReaderOk(s', g', t)
  {
    assert forall a, b | Open(s, a, b) :: Open(s', a, b);
    var r := s.readers[t];
    if r.RRead? || (r.RMark? && r.left > 0) {
      assert r.from !in s'.finished;
      BlockStays(s, g, s', g', r.h, r.slot, r.block, r.from);
    }
  }

  lemma BlockStays(s: State, g: Ghosts, s': State, g': Ghosts, h: nat, slot: int, block: Block, i: nat)
    requires RingOk(s', g') && FlagsOk(s', g') && Grows(s, g, s', g')
    requires AtBlock(s, g, h, slot, block, i) && i !in s'.finished
    ensures AtBlock(s', g', h, slot, block, i)
  {
    OpenIsLive(s', g', i);
    assert g'.ring[i / BLOCK_SIZE - Lo(g')] == block;
  }

  /** Only the producer's place changes. */
  lemma PcFrame(s: State, g: Ghosts, pc: ProducerPc)
    requires Inv(s, g) && Entering(pc) == Entering(s.producer)
    requires !pc.PPublish? && !pc.PBlock? && !pc.PFront? && TailOk(s.(producer := pc), g)
    requires !pc.PReset? && (s.producer.PReset? ==> s.producer.f == BLOCK_SIZE)
    ensures Inv(s.(producer := pc), g)
  {
    var s' := s.(producer := pc);
    assert forall r | 0 <= r < |g.ring| :: BlockMem(s, g.ring[r]) ==> BlockMem(s', g.ring[r]);
    forall j: nat | j < |s'.headers| ensures HeaderOk(s', g, j) {
      assert HeaderOk(s, g, j);
    }
    forall r, j | 0 <= r < |g.ring| && 0 <= j < BLOCK_SIZE ensures ElemOk(s', g, r, j) {
      assert ElemOk(s, g, r, j);
    }
    forall r, f | 0 <= r < |g.ring| && 0 <= f < BLOCK_SIZE ensures FlagOk(s', g, r, f) {
      assert FlagOk(s, g, r, f);
    }
    forall t: nat | t < |s'.readers| ensures ReaderOk(s', g, t) {
      ReaderFrame(s, g, t, s');
    }
  }

  /** A flag found set means a finished index, so that all of them make a finished block. */
  lemma ScanKeeps(s: State, g: Ghosts, s': State) returns (g': Ghosts)
    requires Inv(s, g) && ProducerStep(s, s') && s.producer.PScan?
    ensures Inv(s', g')
  {
    if s.producer.f == BLOCK_SIZE {
      g' := ReuseKeeps(s, g, s');
    } else {
      g' := g;
      ScannedOne(s, g, s');
      PcFrame(s, g, s'.producer);
    }
  }

  lemma ScannedOne(s: State, g: Ghosts, s': State)
    requires RingOk(s, g) && TailOk(s, g) && FlagsOk(s, g)
    requires ProducerStep(s, s') && s.producer.PScan? && s.producer.f < BLOCK_SIZE
    ensures TailOk(s', g) && (s'.producer.PScan? || s'.producer.PIndex?) && s' == s.(producer := s'.producer)
  {
    assert BlockMem(s, g.ring[0]) && FlagOk(s, g, 0, s.producer.f);
  }

  /** All flags were found set: the position is finished, and its block becomes the tail. */
  lemma ReuseKeeps(s: State, g: Ghosts, s': State) returns (g': Ghosts)
    requires Inv(s, g) && ProducerStep(s, s') && s.producer.PScan? && s.producer.f == BLOCK_SIZE
    ensures Inv(s', g')
  {
    g' := g.(ring := g.ring[1..] + [g.ring[0]], k := g.k + 1);
    ReuseRing(s, g, s', g');
    ReuseFinished(s, g);
    ReuseIndex(s, g, s', g');
    ReuseMem(s, g, s', g');
    ReadersGrow(s, g, s', g');
  }

  /** The step from the scan to the clearing of the flags. */
  ghost predicate Reused(s: State, g: Ghosts, s': State, g': Ghosts)
  {
    && ProducerStep(s, s') && s.producer.PScan? && s.producer.f == BLOCK_SIZE
    && g.ring != [] && g' == g.(ring := g.ring[1..] + [g.ring[0]], k := g.k + 1)
  }

  lemma ReuseRing(s: State, g: Ghosts, s': State, g': Ghosts)
    requires RingOk(s, g) && TailOk(s, g) && Reused(s, g, s', g')
    ensures RingOk(s', g') && TailOk(s', g') && Lo(g') == Lo(g) + 1 && |g'.ring| == |g.ring|
    ensures forall r | 0 <= r < |g.ring| - 1 :: g'.ring[r] == g.ring[r + 1]
  {
    forall r | 0 <= r < |g'.ring| ensures BlockMem(s', g'.ring[r]) {
      assert BlockMem(s, g.ring[if r < |g.ring| - 1 then r + 1 else 0]);
    }
  }

  lemma ReuseFinished(s: State, g: Ghosts)
    requires RingOk(s, g) && FlagsOk(s, g) && g.ring != [] && Scanned(s, g, BLOCK_SIZE)
    ensures s.tailBlock.TailBlock? && s.tailBlock.block in s.next && Ahead(s) == g.ring[0]
    ensures forall i: nat | i < BLOCK_SIZE * (Lo(g) + 1) :: i in s.finished
  {
    assert BlockMem(s, g.ring[|g.ring| - 1]);
  }

  lemma ReuseIndex(s: State, g: Ghosts, s': State, g': Ghosts)
    requires RingOk(s, g) && IndexOk(s, g) && Reused(s, g, s', g') && RingOk(s', g')
    ensures IndexOk(s', g')
  {
    forall j: nat | j < |s'.headers| ensures HeaderOk(s', g', j) {
      ReuseHeader(s, g, s', g', j);
    }
  }

  lemma ReuseHeader(s: State, g: Ghosts, s': State, g': Ghosts, j: nat)
    requires RingOk(s, g) && IndexOk(s, g) && Reused(s, g, s', g') && RingOk(s', g') && j < |s.headers|
    ensures HeaderOk(s', g', j)
  {
    assert HeaderOk(s, g, j);
    forall r | 0 <= r < |g'.ring| && Lo(g') + r < g'.hi[j] ensures EntryOk(s'.headers[j], g'.origin[j], g', r) {
      assert EntryOk(s.headers[j], g.origin[j], g, r + 1);
    }
  }

  lemma ReuseMem(s: State, g: Ghosts, s': State, g': Ghosts)
    requires RingOk(s, g) && TailOk(s, g) && ElemsOk(s, g) && FlagsOk(s, g) && C.Safe(s.c)
    requires Reused(s, g, s', g') && RingOk(s', g') && Ahead(s) == g.ring[0]
    requires forall i: nat | i < BLOCK_SIZE * (Lo(g) + 1) :: i in s.finished
    ensures ElemsOk(s', g') && FlagsOk(s', g')
  {
    C.PromisedNat(s.c.threads);
    var last := |g.ring| - 1;
    forall r, j | 0 <= r < |g'.ring| && 0 <= j < BLOCK_SIZE ensures ElemOk(s', g', r, j) {
      if r < last { assert ElemOk(s, g, r + 1, j); }
    }
    forall r, f | 0 <= r < |g'.ring| && 0 <= f < BLOCK_SIZE ensures FlagOk(s', g', r, f) {
      assert FlagOk(s, g, if r < last then r + 1 else 0, f);
    }
  }

  /** One flag of the tail block is cleared; nobody else has anything to do with it yet. */
  lemma ResetKeeps(s: State, g: Ghosts, s': State)
    requires Inv(s, g) && ProducerStep(s, s') && s.producer.PReset?
    ensures Inv(s', g)
  {
    if s.producer.f == BLOCK_SIZE {
      PcFrame(s, g, s'.producer);
    } else {
      ResetOne(s, g, s');
    }
  }

  lemma ResetOne(s: State, g: Ghosts, s': State)
    requires Inv(s, g) && ProducerStep(s, s') && s.producer.PReset? && s.producer.f < BLOCK_SIZE
    ensures Inv(s', g)
  {
    TailBelow(s, g);
    SameIndex(s, g, s');
    ResetMem(s, g, s');
    ReadersGrow(s, g, s', g);
  }

  lemma ResetMem(s: State, g: Ghosts, s': State)
    requires RingOk(s, g) && TailOk(s, g) && ElemsOk(s, g) && FlagsOk(s, g) && C.Safe(s.c) && RingOk(s', g)
    requires ProducerStep(s, s') && s.producer.PReset? && s.producer.f < BLOCK_SIZE && g.ring != []
    ensures ElemsOk(s', g) && FlagsOk(s', g)
  {
    C.PromisedNat(s.c.threads);
    forall r, j | 0 <= r < |g.ring| && 0 <= j < BLOCK_SIZE ensures ElemOk(s', g, r, j) {
      assert ElemOk(s, g, r, j);
    }
    forall r, f | 0 <= r < |g.ring| && 0 <= f < BLOCK_SIZE ensures FlagOk(s', g, r, f) {
      assert FlagOk(s, g, r, f);
    }
  }

  /** The doubled index holds the live positions from slot 0 on. */
  lemma DoubleKeeps(s: State, g: Ghosts, s': State) returns (g': Ghosts)
    requires Inv(s, g) && IndexDoubled(s, s') && !Entering(s.producer) && !Entering(s'.producer)
    requires !s'.producer.PPublish? && !s'.producer.PScan? && TailOk(s', g)
    ensures Inv(s', g')
  {
    g' := g.(origin := g.origin + [Lo(g)], hi := g.hi + [g.k]);
    DoubleIndex(s, g, s', g');
    SameMem(s, g, s', g');
    ReadersGrow(s, g, s', g');
  }

  lemma DoubleIndex(s: State, g: Ghosts, s': State, g': Ghosts)
    requires RingOk(s, g) && IndexOk(s, g) && IndexDoubled(s, s') && !Entering(s.producer) && !Entering(s'.producer)
    requires g' == g.(origin := g.origin + [Lo(g)], hi := g.hi + [g.k])
    ensures RingOk(s', g') && IndexOk(s', g')
  {
    forall r | 0 <= r < |g.ring| ensures BlockMem(s', g.ring[r]) {
      assert BlockMem(s, g.ring[r]);
    }
    DoubledHeader(s, g, s', g');
    forall j: nat | j < |s'.headers| ensures HeaderOk(s', g', j) {
      if j < |s.headers| { HeaderFrame(s, g, j, s', g'); }
    }
  }

  lemma HeaderFrame(s: State, g: Ghosts, j: nat, s': State, g': Ghosts)
    requires j < |s.headers| == |g.origin| == |g.hi| <= |s'.headers| == |g'.origin| == |g'.hi|
    requires HeaderOk(s, g, j) && s'.headers[j] == s.headers[j] && g'.origin[j] == g.origin[j] && g'.hi[j] == g.hi[j]
    requires g'.ring == g.ring && g'.k == g.k && Entered(s', g') >= Entered(s, g)
    ensures HeaderOk(s', g', j)
  {
    SameEntries(s.headers[j], g.origin[j], g.hi[j], g, g');
  }

  lemma SameEntries(h: Header, o: int, hi: int, g: Ghosts, g': Ghosts)
    requires 0 < h.size == |h.entries| && g'.ring == g.ring && g'.k == g.k
    requires forall r | 0 <= r < |g.ring| && Lo(g) + r < hi :: EntryOk(h, o, g, r)
    ensures forall r | 0 <= r < |g'.ring| && Lo(g') + r < hi :: EntryOk(h, o, g', r)
  {
    forall r | 0 <= r < |g'.ring| && Lo(g') + r < hi ensures EntryOk(h, o, g', r) {
      assert EntryOk(h, o, g, r);
    }
  }

  /** Elements and flags stay with the ring. */
  lemma SameMem(s: State, g: Ghosts, s': State, g': Ghosts)
    requires RingOk(s, g) && ElemsOk(s, g) && FlagsOk(s, g) && RingOk(s', g')
    requires g'.ring == g.ring && g'.k == g.k && s'.elems == s.elems && s'.empty == s.empty
    requires s'.enqueued == s.enqueued && s'.finished == s.finished && s'.c == s.c && !s'.producer.PPublish?
    requires !s.producer.PReset? && !s'.producer.PReset?
    ensures ElemsOk(s', g') && FlagsOk(s', g')
  {
    forall r, j | 0 <= r < |g'.ring| && 0 <= j < BLOCK_SIZE ensures ElemOk(s', g', r, j) {
      assert ElemOk(s, g, r, j);
    }
    forall r, f | 0 <= r < |g'.ring| && 0 <= f < BLOCK_SIZE ensures FlagOk(s', g', r, f) {
      assert FlagOk(s, g, r, f);
    }
  }

  lemma DoubledHeader(s: State, g: Ghosts, s': State, g': Ghosts)
    requires RingOk(s, g) && IndexOk(s, g) && IndexDoubled(s, s') && !Entering(s.producer) && !Entering(s'.producer)
    requires g' == g.(origin := g.origin + [Lo(g)], hi := g.hi + [g.k])
    ensures |s'.headers| == |s.headers| + 1 && HeaderOk(s', g', |s.headers|)
  {
    var last := |s.headers|;
    var h, n := s'.headers[last], |g.ring|;
    forall r | 0 <= r < n ensures h.entries[r] == Entry(BLOCK_SIZE * (Lo(g) + r), g.ring[r]) {
      CopiedEntry(s, g, s', r);
    }
    assert forall r | 0 <= r < n :: EntryOk(h, Lo(g), g', r) && Congruent(h, Lo(g), r);
  }

  lemma CopiedEntry(s: State, g: Ghosts, s': State, r: int)
    requires RingOk(s, g) && IndexOk(s, g) && IndexDoubled(s, s') && !Entering(s.producer)
    requires 0 <= r < |g.ring|
    ensures |s'.headers| == |s.headers| + 1 && |g.ring| <= |s'.headers[|s.headers|].entries|
    ensures s'.headers[|s.headers|].entries[r] == Entry(BLOCK_SIZE * (Lo(g) + r), g.ring[r])
  {
    var j := |s.headers| - 1;
    var n, h, old_ := |g.ring|, s'.headers[|s.headers|], s.headers[j];
    assert HeaderOk(s, g, j);
    assert EntryOk(old_, g.origin[j], g, r);
    SlotBack(g.k, g.origin[j], r - n, s.size);
    UnrolledAt(old_.entries, s.front, n, r);
    assert h.entries[..n][r] == h.entries[r];
  }

  lemma UnrolledAt(entries: seq<Entry>, front: nat, used: nat, r: nat)
    requires |entries| > 0 && r < used
    ensures Unrolled(entries, front, used)[r] == entries[Wrap(front + (r - used), |entries|)]
  {
    assert front - used + r == front + (r - used);
  }

  /** A new block joins the ring behind the tail block. */
  lemma LinkKeeps(s: State, g: Ghosts, b: Block, s': State) returns (g': Ghosts)
    requires Inv(s, g) && s.producer.PAlloc? && NotOurs(s, b) && Linked(s, b, s') && s'.producer.PBase?
    ensures Inv(s', g')
  {
    g' := g.(ring := g.ring + [b], k := g.k + 1);
    LinkRing(s, g, b, s', g');
    forall j: nat | j < |s'.headers| ensures HeaderOk(s', g', j) {
      LinkHeader(s, g, b, s', g', j);
    }
    LinkMem(s, g, b, s', g');
    ReadersGrow(s, g, s', g');
  }

  lemma LinkHeader(s: State, g: Ghosts, b: Block, s': State, g': Ghosts, j: nat)
    requires RingOk(s, g) && IndexOk(s, g) && j < |s.headers| && Linked(s, b, s') && RingOk(s', g')
    requires g' == g.(ring := g.ring + [b], k := g.k + 1)
    ensures j < |s'.headers| && HeaderOk(s', g', j)
  {
    assert HeaderOk(s, g, j);
    forall r | 0 <= r < |g'.ring| && Lo(g') + r < g'.hi[j] ensures EntryOk(s'.headers[j], g'.origin[j], g', r) {
      assert EntryOk(s.headers[j], g.origin[j], g, r);
    }
  }

  lemma LinkRing(s: State, g: Ghosts, b: Block, s': State, g': Ghosts)
    requires RingOk(s, g) && TailOk(s, g) && s.producer.PAlloc? && NotOurs(s, b)
    requires Linked(s, b, s') && s'.producer.PBase?
    requires g' == g.(ring := g.ring + [b], k := g.k + 1)
    ensures RingOk(s', g') && TailOk(s', g')
  {
    forall r | 0 <= r < |g.ring| ensures g.ring[r] != b && BlockMem(s', g'.ring[r]) {
      assert BlockMem(s, g.ring[r]);
    }
    assert BlockMem(s', b);
  }

  lemma LinkMem(s: State, g: Ghosts, b: Block, s': State, g': Ghosts)
    requires RingOk(s, g) && TailOk(s, g) && ElemsOk(s, g) && FlagsOk(s, g) && C.Safe(s.c) && RingOk(s', g')
    requires s.producer.PAlloc? && NotOurs(s, b) && Linked(s, b, s') && s'.producer.PBase?
    requires g' == g.(ring := g.ring + [b], k := g.k + 1)
    ensures ElemsOk(s', g') && FlagsOk(s', g')
  {
    C.PromisedNat(s.c.threads);
    forall r | 0 <= r < |g.ring| ensures g.ring[r] != b {
      assert BlockMem(s, g.ring[r]);
    }
    forall r, j | 0 <= r < |g'.ring| && 0 <= j < BLOCK_SIZE ensures ElemOk(s', g', r, j) {
      if r < |g.ring| { assert ElemOk(s, g, r, j); }
    }
    forall r, f | 0 <= r < |g'.ring| && 0 <= f < BLOCK_SIZE ensures FlagOk(s', g', r, f) {
      if r < |g.ring| { assert FlagOk(s, g, r, f); }
    }
  }

  /** The slot the producer writes belongs to no live position. */
  lemma FrontSlotFree(s: State, g: Ghosts, r: int)
    requires RingOk(s, g) && IndexOk(s, g) && Entering(s.producer) && s.headers != []
    requires 0 <= r < |g.ring| && Lo(g) + r < g.k - 1
    ensures Slot(Lo(g) + r, g.origin[|s.headers| - 1], s.size) != s.front
  {
    var o := g.origin[|s.headers| - 1];
    if Slot(Lo(g) + r, o, s.size) == s.front {
      WrapInjective(Lo(g) + r - o, g.k - 1 - o, s.size);
    }
  }

  lemma EntryKeeps(s: State, g: Ghosts, s': State, base: bool)
    requires Inv(s, g) && EntryStored(s, s', base)
    requires if base then s.producer.PBase? && s'.producer.PBlock? else s.producer.PBlock? && s'.producer.PFront?
    ensures Inv(s', g)
  {
    StoredIndex(s, g, s', base);
    SameMem(s, g, s', g);
    ReadersGrow(s, g, s', g);
  }

  lemma StoredIndex(s: State, g: Ghosts, s': State, base: bool)
    requires RingOk(s, g) && TailOk(s, g) && IndexOk(s, g) && EntryStored(s, s', base)
    requires if base then s.producer.PBase? && s'.producer.PBlock? else s.producer.PBlock? && s'.producer.PFront?
    ensures RingOk(s', g) && TailOk(s', g) && IndexOk(s', g)
  {
    assert forall r | 0 <= r < |g.ring| :: BlockMem(s, g.ring[r]) ==> BlockMem(s', g.ring[r]);
    StoredHeader(s, g, s', base);
    forall j: nat | j < |s'.headers| ensures HeaderOk(s', g, j) {
      assert HeaderOk(s, g, j);
    }
  }

  lemma StoredHeader(s: State, g: Ghosts, s': State, base: bool)
    requires RingOk(s, g) && TailOk(s, g) && IndexOk(s, g) && EntryStored(s, s', base)
    requires if base then s.producer.PBase? && s'.producer.PBlock? else s.producer.PBlock? && s'.producer.PFront?
    ensures HeaderOk(s', g, |s.headers| - 1)
  {
    var last := |s.headers| - 1;
    var h, h', o := s.headers[last], s'.headers[last], g.origin[last];
    assert HeaderOk(s, g, last);
    forall f | 0 <= f < h.size && f < g.hi[last] - o ensures Congruent(h', o, f) {
      assert Congruent(h, o, f);
    }
    forall r | 0 <= r < |g.ring| && Lo(g) + r < g.hi[last] ensures EntryOk(h', o, g, r) {
      assert EntryOk(h, o, g, r);
      FrontSlotFree(s, g, r);
    }
  }

  /** Publishing the front makes position k-1 known. */
  lemma FrontPublished(s: State, g: Ghosts, s': State) returns (g': Ghosts)
    requires Inv(s, g) && s.producer.PFront? && ProducerStep(s, s')
    ensures Inv(s', g')
  {
    g' := g.(hi := g.hi[|s.headers| - 1 := g.k]);
    PublishedIndex(s, g, s', g');
    SameMem(s, g, s', g');
    ReadersGrow(s, g, s', g');
  }

  lemma PublishedIndex(s: State, g: Ghosts, s': State, g': Ghosts)
    requires RingOk(s, g) && TailOk(s, g) && IndexOk(s, g) && s.producer.PFront? && ProducerStep(s, s')
    requires g' == g.(hi := g.hi[|s.headers| - 1 := g.k])
    ensures RingOk(s', g') && TailOk(s', g') && IndexOk(s', g')
  {
    var last := |s.headers| - 1;
    forall r | 0 <= r < |g.ring| ensures BlockMem(s', g.ring[r]) {
      assert BlockMem(s, g.ring[r]);
    }
    forall j: nat | j < |s'.headers| ensures HeaderOk(s', g', j) {
      PublishedHeaders(s, g, s', g', j);
    }
    WrapNext(g.k - 1, g.origin[last], s.size);
  }

  lemma PublishedHeaders(s: State, g: Ghosts, s': State, g': Ghosts, j: nat)
    requires RingOk(s, g) && TailOk(s, g) && IndexOk(s, g) && s.producer.PFront? && ProducerStep(s, s')
    requires g' == g.(hi := g.hi[|s.headers| - 1 := g.k]) && j < |s.headers|
    ensures j < |s'.headers| && HeaderOk(s', g', j)
  {
    if j < |s.headers| - 1 {
      HeaderFrame(s, g, j, s', g');
    } else {
      PublishedHeader(s, g, s', g');
    }
  }

  lemma PublishedHeader(s: State, g: Ghosts, s': State, g': Ghosts)
    requires RingOk(s, g) && TailOk(s, g) && IndexOk(s, g) && s.producer.PFront? && ProducerStep(s, s')
    requires g' == g.(hi := g.hi[|s.headers| - 1 := g.k])
    ensures HeaderOk(s', g', |s.headers| - 1)
  {
    var last := |s.headers| - 1;
    var h', o := s'.headers[last], g.origin[last];
    assert HeaderOk(s, g, last);
    forall f | 0 <= f < h'.size && f < g.k - o ensures Congruent(h', o, f) {
      if f < g.hi[last] - o {
        assert Congruent(s.headers[last], o, f);
      } else {
      }
    }
    forall r | 0 <= r < |g'.ring| && Lo(g') + r < g.k ensures EntryOk(h', o, g', r) {
      if Lo(g) + r < g.hi[last] { assert EntryOk(s.headers[last], o, g, r); }
    }
  }

  /** Elements or flags of a block change, and the index does not. */
  lemma SameIndex(s: State, g: Ghosts, s': State)
    requires RingOk(s, g) && IndexOk(s, g) && s'.headers == s.headers && s'.next == s.next
    requires s'.tailBlock == s.tailBlock && s'.slotsUsed == s.slotsUsed && s'.size == s.size && s'.front == s.front
    requires Entering(s'.producer) == Entering(s.producer) && !s'.producer.PBlock? && !s'.producer.PFront?
    requires forall b | b in s.elems && b in s.empty && BlockMem(s, b) :: BlockMem(s', b)
    ensures RingOk(s', g) && IndexOk(s', g)
  {
    forall r | 0 <= r < |g.ring| ensures BlockMem(s', g.ring[r]) {
      assert BlockMem(s, g.ring[r]);
    }
    forall j: nat | j < |s'.headers| ensures HeaderOk(s', g, j) {
      HeaderFrame(s, g, j, s', g);
    }
  }

  lemma WriteKeeps(s: State, g: Ghosts, s': State)
    requires Inv(s, g) && s.producer.PWrite? && ProducerStep(s, s')
    ensures Inv(s', g)
  {
    SameIndex(s, g, s');
    WriteMem(s, g, s');
    ReadersGrow(s, g, s', g);
  }

  lemma WriteMem(s: State, g: Ghosts, s': State)
    requires RingOk(s, g) && TailOk(s, g) && ElemsOk(s, g) && FlagsOk(s, g) && RingOk(s', g)
    requires s.producer.PWrite? && ProducerStep(s, s')
    ensures ElemsOk(s', g) && FlagsOk(s', g)
  {
    forall r, j | 0 <= r < |g.ring| && 0 <= j < BLOCK_SIZE ensures ElemOk(s', g, r, j) {
      assert ElemOk(s, g, r, j);
    }
    forall r, f | 0 <= r < |g.ring| && 0 <= f < BLOCK_SIZE ensures FlagOk(s', g, r, f) {
      assert FlagOk(s, g, r, f);
    }
  }

  lemma PublishKeeps(s: State, g: Ghosts, s': State)
    requires Inv(s, g) && s.producer.PPublish? && ProducerStep(s, s') && C.Safe(s'.c)
    ensures Inv(s', g)
  {
    SameIndex(s, g, s');
    PublishMem(s, g, s');
    ReadersGrow(s, g, s', g);
  }

  lemma PublishMem(s: State, g: Ghosts, s': State)
    requires RingOk(s, g) && TailOk(s, g) && ElemsOk(s, g) && FlagsOk(s, g) && RingOk(s', g)
    requires s.producer.PPublish? && ProducerStep(s, s')
    ensures ElemsOk(s', g) && FlagsOk(s', g)
  {
    forall r, j | 0 <= r < |g.ring| && 0 <= j < BLOCK_SIZE ensures ElemOk(s', g, r, j) {
      PublishElem(s, g, s', r, j);
    }
    forall r, f | 0 <= r < |g.ring| && 0 <= f < BLOCK_SIZE ensures FlagOk(s', g, r, f) {
      assert FlagOk(s, g, r, f);
    }
  }

  /** The element that becomes readable is the one just written. */
  lemma PublishElem(s: State, g: Ghosts, s': State, r: int, j: int)
    requires RingOk(s, g) && TailOk(s, g) && ElemsOk(s, g) && RingOk(s', g)
    requires s.producer.PPublish? && ProducerStep(s, s') && 0 <= r < |g.ring| && 0 <= j < BLOCK_SIZE
    ensures |s'.enqueued| == s'.c.tail && ElemOk(s', g, r, j)
  {
    assert ElemOk(s, g, r, j);
    if At(g, r, j) == s.c.tail { TailAt(g, r, j, s.c.tail); }
  }

  lemma TailAt(g: Ghosts, r: int, j: int, i: int)
    requires 0 <= r < |g.ring| && 0 <= j < BLOCK_SIZE && At(g, r, j) == i && BLOCK_SIZE * (g.k - 1) <= i
    ensures r == |g.ring| - 1 && j == i % BLOCK_SIZE
  {}

  lemma ProducerKeeps(s: State, g: Ghosts, s': State) returns (g': Ghosts)
    requires Inv(s, g) && ProducerStep(s, s') && C.Safe(s'.c)
    ensures Inv(s', g')
  {
    if Entering(s.producer) || s.producer.PWrite? || s.producer.PPublish? {
      g' := EnteringKeeps(s, g, s');
    } else {
      match s.producer
      case PIdle => g' := g; IdleKeeps(s, g, s');
      case PBoundary(_) => g' := g; BoundaryKeeps(s, g, s');
      case PScan(_, _) => g' := ScanKeeps(s, g, s');
      case PIndex(_) => g' := IndexKeeps(s, g, s');
      case PAlloc(_) => g' := AllocKeeps(s, g, s');
    }
  }

  lemma EnteringKeeps(s: State, g: Ghosts, s': State) returns (g': Ghosts)
    requires Inv(s, g) && ProducerStep(s, s') && C.Safe(s'.c)
    requires Entering(s.producer) || s.producer.PWrite? || s.producer.PPublish?
    ensures Inv(s', g')
  {
    g' := g;
    match s.producer
    case PReset(_, _) => ResetKeeps(s, g, s');
    case PBase(_) => EntryKeeps(s, g, s', true);
    case PBlock(_) => EntryKeeps(s, g, s', false);
    case PFront(_) => g' := FrontPublished(s, g, s');
    case PWrite(_) => WriteKeeps(s, g, s');
    case PPublish(_) => PublishKeeps(s, g, s');
  }

  lemma IdleKeeps(s: State, g: Ghosts, s': State)
    requires Inv(s, g) && ProducerStep(s, s') && s.producer.PIdle?
    ensures Inv(s', g)
  {
    PcFrame(s, g, s'.producer);
  }

  lemma BoundaryKeeps(s: State, g: Ghosts, s': State)
    requires Inv(s, g) && ProducerStep(s, s') && s.producer.PBoundary?
    ensures Inv(s', g)
  {
    PcFrame(s, g, s'.producer);
  }

  lemma IndexKeeps(s: State, g: Ghosts, s': State) returns (g': Ghosts)
    requires Inv(s, g) && ProducerStep(s, s') && s.producer.PIndex?
    ensures Inv(s', g')
  {
    if s' == s.(producer := s'.producer) {
      g' := g;
      PcFrame(s, g, s'.producer);
    } else {
      g' := DoubleKeeps(s, g, s');
    }
  }

  lemma AllocKeeps(s: State, g: Ghosts, s': State) returns (g': Ghosts)
    requires Inv(s, g) && ProducerStep(s, s') && s.producer.PAlloc?
    ensures Inv(s', g')
  {
    if b :| NotOurs(s, b) && Linked(s, b, s') && s'.producer.PBase? {
      g' := LinkKeeps(s, g, b, s');
    } else {
      g' := g;
      PcFrame(s, g, PIdle);
    }
  }

  // ------------------------------------------------------------------ executions

  lemma InitKeeps(s: State) returns (g: Ghosts, cg: C.Ghosts)
    requires Init(s)
    ensures Inv(s, g) && C.Inv(s.c, cg) && C.Ledger(s.c)
  {
    if Start(s) {
      g, cg := StartKeeps(s);
    } else {
      var s0 :| Start(s0) && IndexDoubled(s0, s) && s.producer == PIdle;
      g, cg := StartKeeps(s0);
      g := DoubleKeeps(s0, g, s);
    }
  }

  lemma StartKeeps(s: State) returns (g: Ghosts, cg: C.Ghosts)
    requires Start(s)
    ensures Inv(s, g) && g.k == 0 && C.Inv(s.c, cg) && C.Ledger(s.c)
  {
    g := Ghosts([], 0, [], []);
    cg := C.InitInv(s.c);
    C.MakesSafe(s.c, cg);
  }

  lemma NextKeeps(s: State, g: Ghosts, cg: C.Ghosts, s': State) returns (g': Ghosts, cg': C.Ghosts)
    requires Inv(s, g) && C.Inv(s.c, cg) && C.Ledger(s.c) && Next(s, s')
    ensures Inv(s', g') && C.Inv(s'.c, cg') && C.Ledger(s'.c)
  {
    cg' := CountersKeep(s, cg, s');
    C.MakesSafe(s'.c, cg');
    g' := g;
    if ProducerStep(s, s') {
      g' := ProducerKeeps(s, g, s');
    } else {
      var t: nat :| ConsumerStep(s, t, s');
      ConsumerKeeps(s, g, t, s');
    }
  }

  lemma ConsumerKeeps(s: State, g: Ghosts, t: nat, s': State)
    requires Inv(s, g) && ConsumerStep(s, t, s') && C.Safe(s'.c)
    ensures Inv(s', g)
  {
    if CountStep(s, t, s') {
      CounterMove(s, g, t, s');
    } else if LookupStep(s, t, s') {
      LookupKeeps(s, g, t, s');
    } else if ReadStep(s, t, s') {
      ReadKeeps(s, g, t, s');
    } else {
      MarkKeeps(s, g, t, s');
    }
  }

  /** The counters of the composed machine make a step of their own machine or none. */
  lemma CountersKeep(s: State, cg: C.Ghosts, s': State) returns (cg': C.Ghosts)
    requires C.Inv(s.c, cg) && C.Ledger(s.c) && Next(s, s')
    ensures C.Inv(s'.c, cg') && C.Ledger(s'.c)
  {
    if ProducerStep(s, s') {
      ProducerProjects(s, s');
    } else {
      var t: nat :| ConsumerStep(s, t, s');
      ConsumerProjects(s, t, s');
    }
    if s'.c == s.c {
      cg' := cg;
    } else {
      cg' := C.NextKeeps(s.c, cg, s'.c);
    }
  }

  lemma ProducerProjects(s: State, s': State)
    requires ProducerStep(s, s')
    ensures s'.c == s.c || C.Publish(s.c, 1, s'.c)
  {
    if s.producer.PAlloc? && s' != s.(producer := PIdle) {
      var b :| NotOurs(s, b) && Linked(s, b, s');
    }
  }

  lemma ConsumerProjects(s: State, t: nat, s': State)
    requires ConsumerStep(s, t, s')
    ensures s'.c == s.c || C.ThreadStep(s.c, t, s'.c)
  {
    if LookupStep(s, t, s') {
      LookupProjects(s, t, s');
    } else if ReadStep(s, t, s') {
      ReadProjects(s, t, s');
    } else if MarkStep(s, t, s') {
      MarkProjects(s, t, s');
    }
  }

  lemma LookupProjects(s: State, t: nat, s': State)
    requires LookupStep(s, t, s')
    ensures s'.c == s.c
  {}

  lemma ReadProjects(s: State, t: nat, s': State)
    requires ReadStep(s, t, s')
    ensures s'.c == s.c
  {}

  lemma MarkProjects(s: State, t: nat, s': State)
    requires MarkStep(s, t, s')
    ensures s'.c == s.c || C.ThreadStep(s.c, t, s'.c)
  {}

  lemma {:induction false} Reachable(tr: seq<State>, i: nat) returns (g: Ghosts, cg: C.Ghosts)
    requires Execution(tr) && i < |tr|
    ensures Inv(tr[i], g) && C.Inv(tr[i].c, cg) && C.Ledger(tr[i].c)
  {
    if i == 0 {
      g, cg := InitKeeps(tr[0]);
    } else {
      g, cg := Reachable(tr, i - 1);
      g, cg := NextKeeps(tr[i - 1], g, cg, tr[i]);
    }
  }

  // ------------------------------------------------------------------ main results

  /** What a consumer finds at each point of its lookup: every access is in range, the
      slot it computed for a claimed index holds the entry of its block, the element is the
      one enqueued at its index, and no flag is set twice. */
  ghost predicate ReaderSafe(s: State, t: nat)
    requires t < |s.readers|
  {
    match s.readers[t]
    case RNone => true
    case RStart => s.headers != []
    case RFront(h) => h < |s.headers|
    case RBase(h, f) => h < |s.headers| && 0 <= f < |s.headers[h].entries| && s.headers[h].size > 0
    case RBlock(h, slot, i) =>
      && h < |s.headers| && 0 <= slot < |s.headers[h].entries|
      && (Claims(s, t) ==>
            s.headers[h].entries[slot].base == BlockBase(i) && s.headers[h].entries[slot].block in s.elems)
    case RRead(h, slot, block, from, at) =>
      && t < |s.c.threads| && s.c.threads[t].Reading?
      && (at < BlockEnd(from, C.ClaimEnd(s.c, t)) ==>
            && at < |s.enqueued| && block in s.elems && |s.elems[block]| == BLOCK_SIZE
            && s.elems[block][at % BLOCK_SIZE] == s.enqueued[at])
    case RMark(h, slot, block, from, to, left) =>
      left > 0 ==>
        var f := BLOCK_SIZE - 1 - (from + left - 1) % BLOCK_SIZE;
        block in s.empty && f < |s.empty[block]| && !s.empty[block][f]
  }

  lemma ReaderIsSafe(s: State, g: Ghosts, t: nat)
    requires Inv(s, g) && t < |s.readers|
    ensures ReaderSafe(s, t)
  {
    assert ReaderOk(s, g, t);
    if s.c.threads[t].Reading? {
      match s.readers[t]
      case RStart =>
        C.ClaimBelowTail(s.c, t);
        TailBelow(s, g);
      case RBase(h, f) => assert HeaderOk(s, g, h);
      case RBlock(h, slot, i) =>
        if Claims(s, t) {
          FindBlock(s, g, t, h, slot, i);
          assert BlockMem(s, s.headers[h].entries[slot].block);
        }
      case RRead(h, slot, block, from, at) =>
        if at < BlockEnd(from, C.ClaimEnd(s.c, t)) { ReadValue(s, g, t); }
      case RMark(h, slot, block, from, to, left) => if left > 0 { FlagFresh(s, g, t); }
      case _ =>
    }
  }

  lemma FlagFresh(s: State, g: Ghosts, t: nat)
    requires Inv(s, g) && t < |s.readers| && s.c.threads[t].Reading? && s.readers[t].RMark? && s.readers[t].left > 0
    ensures ReaderSafe(s, t)
  {
    assert ReaderOk(s, g, t);
    var r := s.readers[t];
    var i, p := r.from + r.left - 1, r.from / BLOCK_SIZE - Lo(g);
    assert i / BLOCK_SIZE == r.from / BLOCK_SIZE;
    assert BlockMem(s, g.ring[p]);
    C.ClaimBelowTail(s.c, t);
    assert FlagOk(s, g, p, BLOCK_SIZE - 1 - i % BLOCK_SIZE);
    assert At(g, p, i % BLOCK_SIZE) == i;
  }

  /** The lookup of every claimed, unfinished index is right in every reachable state,
      through block reuse, new blocks and any number of index doublings. */
  lemma LookupSound(tr: seq<State>, i: nat, t: nat)
    requires Execution(tr) && i < |tr| && t < |tr[i].readers|
    ensures ReaderSafe(tr[i], t)
  {
    var g, cg := Reachable(tr, i);
    ReaderIsSafe(tr[i], g, t);
  }

  /** Every value read for an index is the value enqueued at that index, and exactly one
      consumer was granted that index. */
  lemma ReadsWhatWasEnqueued(tr: seq<State>, i: nat, x: nat) returns (k: nat)
    requires Execution(tr) && i < |tr| && x in tr[i].read
    ensures x < tr[i].c.tail == |tr[i].enqueued| && tr[i].read[x] == tr[i].enqueued[x]
    ensures k < |tr[i].c.grants| && C.Covers(tr[i].c.grants[k], x)
    ensures forall j | 0 <= j < |tr[i].c.grants| && j != k :: !C.Covers(tr[i].c.grants[j], x)
  {
    var g, cg := Reachable(tr, i);
    k := C.TiledOnce(tr[i].c.grants, tr[i].c.head, x);
  }

  /** A block is put back to use only when all its 32 elements have been taken out. The
      scan reads the flags one by one while consumers go on setting them; once it has
      found all of them set, every element of the block ahead, and all before, is finished,
      and that block is the one the newest index names for the oldest position p. */
  lemma ReuseOnlyFinished(tr: seq<State>, i: nat, p: nat)
    requires Execution(tr) && i < |tr| && tr[i].producer.PScan? && tr[i].producer.f == BLOCK_SIZE
    requires p == tr[i].c.tail / BLOCK_SIZE - tr[i].slotsUsed
    ensures forall x: nat | x < BLOCK_SIZE * (p + 1) :: x in tr[i].finished
    ensures HasAhead(tr[i]) && tr[i].headers != []
    ensures Entry(BLOCK_SIZE * p, Ahead(tr[i])) in tr[i].headers[|tr[i].headers| - 1].entries
  {
    var g, cg := Reachable(tr, i);
    var s := tr[i];
    ReuseFinished(s, g);
    var last := |s.headers| - 1;
    assert BlockMem(s, g.ring[0]) && HeaderOk(s, g, last);
    assert EntryOk(s.headers[last], g.origin[last], g, 0);
  }

  /** The producer's own accesses are always in range. */
  lemma ProducerInRange(tr: seq<State>, i: nat)
    requires Execution(tr) && i < |tr|
    ensures var s := tr[i];
      && (Entering(s.producer) ==> s.headers != [] && s.front < |s.headers[|s.headers| - 1].entries|)
      && (s.producer.PWrite? ==>
            s.tailBlock.TailBlock? && s.tailBlock.block in s.elems && |s.elems[s.tailBlock.block]| == BLOCK_SIZE)
      && (s.producer.PScan? ==> HasAhead(s))
      && (s.producer.PReset? ==>
            s.tailBlock.TailBlock? && s.tailBlock.block in s.empty && |s.empty[s.tailBlock.block]| == BLOCK_SIZE)
      && s.slotsUsed <= s.size
  {
    var g, cg := Reachable(tr, i);
    if g.ring != [] {
      assert BlockMem(tr[i], g.ring[|g.ring| - 1]) && BlockMem(tr[i], g.ring[0]);
    }
  }
}
