/** The invariant of the implicit producer and what follows from it: through insertion,
    undoing, growth and blocks completing out of order, a consumer's lookup finds an
    entry with its key and a block; it reads what was enqueued; and every block that has
    been filled and emptied is given back exactly once. */
module ImplicitProducerProof {
  import opened Totals
  import opened Blocks
  import opened Modular
  import opened ImplicitProducer
  import C = DequeueCounters

  /** Index j keeps position p in slot (p - origin[j]) mod capacity, and knew the positions
      below hi[j] when it was replaced; `index[j]` are its pointers. */
  datatype Indices = Indices(index: seq<seq<nat>>, origin: seq<int>, hi: seq<int>)

  /** Position p holds the indices 32p .. 32p+31; `k` positions have been inserted and
      `pos[p]` is the block of position p. `nulled` are the positions whose entry has been
      cleared. The positions from k up to `top` have their key in place, from insertions
      that were undone or that is going on. */
  datatype Ghosts = Ghosts(k: nat, top: nat, pos: seq<Block>, nulled: set<nat>, ix: Indices)

  /** The entry that index j uses for position x. */
  function EntryOf(ix: Indices, j: nat, x: int): nat
    requires j < |ix.index| == |ix.origin| && |ix.index[j]| > 0
  { ix.index[j][Wrap(x - ix.origin[j], |ix.index[j]|)] }

  function Last(ix: Indices): nat
    requires ix.index != []
  { |ix.index| - 1 }

  function Cap(ix: Indices): nat
    requires ix.index != []
  { |ix.index[Last(ix)]| }

  function Origin(ix: Indices): int
    requires ix.index != [] && |ix.index| == |ix.origin|
  { ix.origin[Last(ix)] }

  // ------------------------------------------------------------------ the invariant, in groups

  ghost predicate IndicesOk(headers: seq<Header>, entries: seq<Entry>, ix: Indices)
  {
    && |headers| == |ix.index| == |ix.origin| == |ix.hi|
    && (forall j | 0 <= j < |headers| ::
          1 < headers[j].capacity == |ix.index[j]| && headers[j].index == ix.index[j]
          && 0 <= headers[j].tail < headers[j].capacity <= |entries|)
    && (forall j, i | 0 <= j < |ix.index| && 0 <= i < |ix.index[j]| :: ix.index[j][i] < |ix.index[j]|)
    && (forall j, i, i' | 0 <= j < |ix.index| && 0 <= i < i' < |ix.index[j]| :: ix.index[j][i] != ix.index[j][i'])
    && (headers != [] ==> Cap(ix) == |entries| && 0 <= Origin(ix))
  }

  ghost predicate ShapeOk(s: State, g: Ghosts)
  {
    && IndicesOk(s.headers, s.entries, g.ix) && |g.pos| == g.k
    && (s.headers != [] ==>
          s.nextCapacity == 2 * Cap(g.ix) && Origin(g.ix) <= g.k <= g.top <= g.k + Cap(g.ix))
    && (s.headers == [] ==> s.entries == [] && s.nextCapacity > 1 && g.k == g.top == 0)
  }

  /** An older index agrees with the newest on every entry they share. */
  ghost predicate LinkOk(ix: Indices, j: nat)
    requires j < |ix.index| == |ix.origin| && |ix.index[j]| > 0 && Cap(ix) > 0
  {
    forall x: int :: EntryOf(ix, Last(ix), x) < |ix.index[j]| ==> EntryOf(ix, j, x) == EntryOf(ix, Last(ix), x)
  }

  /** The first position that can still be in the index. */
  function Low(g: Ghosts): int
    requires g.ix.index != [] && |g.ix.index| == |g.ix.origin|
  { if g.k - Cap(g.ix) < Origin(g.ix) then Origin(g.ix) else g.k - Cap(g.ix) }

  function Hi(g: Ghosts, j: nat): int
    requires j < |g.ix.index| == |g.ix.hi|
  { if j == Last(g.ix) then g.k else g.ix.hi[j] }

  ghost predicate OlderOk(s: State, g: Ghosts, j: nat)
    requires ShapeOk(s, g) && j < |s.headers|
  {
    && LinkOk(g.ix, j)
    && Hi(g, j) <= g.k
    && (forall p: nat | Low(g) <= p < Hi(g, j) && p !in g.nulled ::
          EntryOf(g.ix, Last(g.ix), p) < |g.ix.index[j]|)
    && (j < Last(g.ix) ==> s.entries[g.ix.index[j][s.headers[j].tail]].key != INVALID_BLOCK_BASE)
  }

  predicate Inserting(pc: ProducerPc) { pc.PTail? || pc.PAlloc? || pc.PRewind? || pc.PClear? || pc.PValue? }
  predicate Ahead(pc: ProducerPc) { pc.PAlloc? || pc.PRewind? || pc.PValue? }

  /** How far an undo has moved the index tail back, and how many entries it has cleared. */
  function Back(pc: ProducerPc): nat { if pc.PUndo? || pc.PBack? then pc.i else 0 }
  function Unset(pc: ProducerPc): nat { if pc.PUndo? then pc.i else if pc.PBack? then pc.i + 1 else 0 }

  /** The entry the newest index uses for position x. */
  function EntryAt(entries: seq<Entry>, ix: Indices, x: int): Entry
    requires ix.index != [] && |ix.index| == |ix.origin| && 0 < Cap(ix) == |entries|
    requires forall i | 0 <= i < Cap(ix) :: ix.index[Last(ix)][i] < |entries|
  { entries[EntryOf(ix, Last(ix), x)] }

  ghost predicate KeysOk(s: State, g: Ghosts)
    requires ShapeOk(s, g)
  { s.headers != [] ==> OldKeys(s, g) && InsertOk(s, g) }

  /** Valid keys are congruent to their slot and recent, and a whole circle of entries shows
      what it should. */
  ghost predicate OldKeys(s: State, g: Ghosts)
    requires ShapeOk(s, g) && s.headers != []
  {
    && (forall e | 0 <= e < |s.entries| :: KeyOk(s, g, e))
    && (forall x | g.k <= x < g.k + Cap(g.ix) :: SlotOk(s, g, x))
  }

  ghost predicate KeyOk(s: State, g: Ghosts, e: nat)
    requires ShapeOk(s, g) && s.headers != [] && e < |s.entries|
  {
    var key := s.entries[e].key;
    key != INVALID_BLOCK_BASE ==>
      && key % BLOCK_SIZE == 0 && g.k - Cap(g.ix) <= key / BLOCK_SIZE < g.top
      && EntryOf(g.ix, Last(g.ix), key / BLOCK_SIZE) == e
  }

  /** The entry for position x and, a circle earlier, x - Cap: it has the key of x from an
      insertion that was undone and is clear, unless it is being inserted; or it still has
      the key of x - Cap; or it has never been used. */
  ghost predicate SlotOk(s: State, g: Ghosts, x: int)
    requires ShapeOk(s, g) && s.headers != []
  {
    var e := EntryAt(s.entries, g.ix, x);
    && e.key == SlotKey(g, x)
    && (x < g.top ==>
          && (x - Cap(g.ix) >= Origin(g.ix) ==> x - Cap(g.ix) in g.nulled)
          && (e.value == Null || (x == g.k && Inserting(s.producer))))
  }

  function SlotKey(g: Ghosts, x: int): int
    requires g.ix.index != [] && |g.ix.index| == |g.ix.origin|
  {
    if x < g.top then BLOCK_SIZE * x
    else if x - Cap(g.ix) >= Origin(g.ix) then BLOCK_SIZE * (x - Cap(g.ix))
    else INVALID_BLOCK_BASE
  }

  /** The entry that the next insertion uses, and the tail of the index. */
  ghost predicate InsertOk(s: State, g: Ghosts)
    requires ShapeOk(s, g) && s.headers != []
  {
    && (Inserting(s.producer) ==> g.top > g.k)
    && (s.producer.PGrow? ==> g.top == g.k && g.k - Cap(g.ix) >= Origin(g.ix))
    && (s.producer.PKey? || Inserting(s.producer) ==>
          g.k - Cap(g.ix) >= Origin(g.ix) ==> g.k - Cap(g.ix) in g.nulled)
    && s.headers[Last(g.ix)].tail == Wrap(TailAt(s, g) - Origin(g.ix), Cap(g.ix))
  }

  /** The position whose slot is the index tail. */
  function TailAt(s: State, g: Ghosts): int
  { (if Ahead(s.producer) then g.k else g.k - 1) - Back(s.producer) }

  /** Values: an inserted position shows its block until it is cleared, and a position
      that is not cleared is still in the index. */
  ghost predicate ValuesOk(s: State, g: Ghosts)
    requires ShapeOk(s, g)
  {
    && (forall p: nat | p < g.k && p !in g.nulled :: s.headers != [] && Low(g) <= p)
    && (s.headers != [] ==>
          forall p | Low(g) <= p < g.k ::
            EntryAt(s.entries, g.ix, p).value == if p in g.nulled then Null else At(g.pos[p]))
  }

  /** The blocks of the enqueue in progress are those of the positions from k0 on, which
      the undo clears one after the other. */
  ghost predicate BatchOk(s: State, g: Ghosts, k0: nat)
  {
    && k0 <= g.k == |g.pos| && s.batch == g.pos[k0..]
    && (s.batch != [] ==> g.ix.index != [] && |g.ix.index| == |g.ix.origin| && Low(g) <= k0)
    && (g.ix.index != [] ==> g.top <= k0 + Cap(g.ix))
    && (forall p: nat | k0 <= p < g.k :: p in g.nulled <==> p < k0 + Unset(s.producer))
  }

  ghost predicate TailOk(s: State, g: Ghosts)
  {
    var k0 := Positions(s.c.tail);
    && (if s.producer.PGive? then g.k == |g.pos| == k0 else BatchOk(s, g, k0))
    && (s.c.tail % BLOCK_SIZE != 0 ==> 0 < k0 <= |g.pos| && s.tailBlock == At(g.pos[k0 - 1]))
    && PlaceOk(s)
  }

  /** What the producer's place says of the enqueue in progress. */
  predicate PlaceOk(s: State)
  {
    match s.producer
    case PIdle => s.batch == []
    case PInsert(vs) => |s.batch| < Need(s.c.tail, |vs|)
    case PGrow(vs) => |s.batch| < Need(s.c.tail, |vs|) && s.headers != []
    case PKey(vs) => |s.batch| < Need(s.c.tail, |vs|) && s.headers != []
    case PTail(vs) => |s.batch| < Need(s.c.tail, |vs|) && s.headers != []
    case PAlloc(vs) => |s.batch| < Need(s.c.tail, |vs|) && s.headers != []
    case PValue(vs, _) => |s.batch| < Need(s.c.tail, |vs|) && s.headers != []
    case PWrite(vs, at) => |s.batch| == Need(s.c.tail, |vs|) && at <= |vs|
    case PRewind => s.headers != []
    case PClear => s.headers != []
    case PUndo(i) => i <= |s.batch|
    case PBack(i) => i < |s.batch| && s.headers != []
    case PGive => true
  }

  /** The enqueue goes on; nothing of it is undone or forgotten. */
  lemma TailFrame(s: State, g: Ghosts, s': State, g': Ghosts)
    requires TailOk(s, g) && PlaceOk(s') && s'.producer.PGive? == s.producer.PGive?
    requires Unset(s'.producer) == Unset(s.producer)
    requires s'.c.tail == s.c.tail && s'.batch == s.batch && s'.tailBlock == s.tailBlock
    requires g' == g.(top := g'.top) && (g.ix.index != [] ==> g'.top <= Positions(s.c.tail) + Cap(g.ix))
    ensures TailOk(s', g')
  {}

  // ------------------------------------------------------------------ finished indices

  function FinCount(fin: set<nat>, a: nat, n: nat): nat
  {
    if n == 0 then 0 else FinCount(fin, a, n - 1) + if a + n - 1 in fin then 1 else 0
  }

  ghost predicate Full(fin: set<nat>, p: nat)
  {
    forall i: nat | BLOCK_SIZE * p <= i < BLOCK_SIZE * p + BLOCK_SIZE :: i in fin
  }

  ghost predicate UsedBlock(s: State, g: Ghosts, p: nat)
    requires p < |g.pos|
  {
    var b := g.pos[p];
    && b in s.ours && b in s.elems && b in s.dequeued && |s.elems[b]| == BLOCK_SIZE
    && s.dequeued[b] == FinCount(s.finished, BLOCK_SIZE * p, BLOCK_SIZE)
    && |s.enqueued| == s.c.tail
    && (forall j | 0 <= j < BLOCK_SIZE && BLOCK_SIZE * p + j < s.c.tail ::
          s.elems[b][j] == s.enqueued[BLOCK_SIZE * p + j])
  }

  ghost predicate BlocksOk(s: State, g: Ghosts)
    requires |g.pos| == g.k
  {
    && |s.enqueued| == s.c.tail
    && (forall p: nat | p < g.k && s.freed[p] == 0 :: UsedBlock(s, g, p))
    && (forall p, q | 0 <= p < q < g.k && s.freed[p] == 0 && s.freed[q] == 0 :: g.pos[p] != g.pos[q])
    && (s.producer.PValue? ==>
          var b := s.producer.b;
          && b in s.ours && b in s.elems && b in s.dequeued && |s.elems[b]| == BLOCK_SIZE && s.dequeued[b] == 0
          && forall p | 0 <= p < g.k && s.freed[p] == 0 :: g.pos[p] != b)
    && (s.producer.PWrite? ==> forall a | 0 <= a < s.producer.at :: WrittenOk(s, g, s.producer.vs, a))
    && (s.producer.PGive? ==> BatchApart(s, g))
  }

  /** Element a of those being enqueued is in its place. */
  ghost predicate WrittenOk(s: State, g: Ghosts, vs: seq<Value>, a: nat)
  {
    var i := s.c.tail + a;
    && a < |vs| && i / BLOCK_SIZE < |g.pos| && g.pos[i / BLOCK_SIZE] in s.elems
    && |s.elems[g.pos[i / BLOCK_SIZE]]| == BLOCK_SIZE
    && s.elems[g.pos[i / BLOCK_SIZE]][i % BLOCK_SIZE] == vs[a]
  }

  /** The blocks about to be given back are ours and no position's. */
  ghost predicate BatchApart(s: State, g: Ghosts)
    requires |g.pos| == g.k
  {
    && (forall i | 0 <= i < |s.batch| :: s.batch[i] in s.ours)
    && (forall i, j | 0 <= i < j < |s.batch| :: s.batch[i] != s.batch[j])
    && (forall p, i | 0 <= p < g.k && s.freed[p] == 0 && 0 <= i < |s.batch| :: g.pos[p] != s.batch[i])
  }

  predicate Releases(r: ReaderPc, p: nat) { (r.RNull? || r.RFree?) && r.from / BLOCK_SIZE == p }

  function Releasing(p: nat): ReaderPc -> int { (r: ReaderPc) => One(Releases(r, p)) }

  ghost predicate FinishedOk(s: State, g: Ghosts)
  {
    && (forall i | i in s.finished :: i < s.c.head)
    && (forall p | p in g.nulled :: p < g.k && (p < Positions(s.c.tail) ==> Full(s.finished, p)))
    && (forall p | p in s.freed :: p in g.nulled)
    // every filled and emptied block is being given back by one consumer, or has been once
    && (forall p: nat :: ReleaseOk(s, p))
  }

  ghost predicate ReleaseOk(s: State, p: nat)
  {
    s.freed[p] + Total(s.readers, Releasing(p)) == One(Full(s.finished, p))
  }

  // ------------------------------------------------------------------ readers

  ghost predicate Open(s: State, a: int, b: int) { forall i: nat | a <= i < b :: i !in s.finished }

  ghost predicate Knows(g: Ghosts, h: nat, end: nat)
  {
    h < |g.ix.index| == |g.ix.origin| == |g.ix.hi| && end <= BLOCK_SIZE * Hi(g, h) && |g.ix.index[h]| > 0
  }

  ghost predicate AtSlot(g: Ghosts, h: nat, slot: int, p: int)
    requires h < |g.ix.index| == |g.ix.origin| && |g.ix.index[h]| > 0
  { slot == Wrap(p - g.ix.origin[h], |g.ix.index[h]|) }

  ghost predicate ReaderOk(s: State, g: Ghosts, t: nat)
    requires t < |s.readers| == |s.c.threads|
  {
    if !s.c.threads[t].Reading? then s.readers[t].RNone?
    else
      var first, end := s.c.threads[t].first, C.ClaimEnd(s.c, t);
      match s.readers[t]
      case RNone => false
      case RStart => Open(s, first, end)
      case RTail(h) => Open(s, first, end) && Knows(g, h, end)
      case RKey(h, q) =>
        && Open(s, first, end) && Knows(g, h, end) && 0 <= q < |g.ix.index[h]|
        && g.ix.index[h][q] < |s.entries| && s.entries[g.ix.index[h][q]].key != INVALID_BLOCK_BASE
      case RValue(h, slot, i) =>
        && first <= i < end && (i == first || i % BLOCK_SIZE == 0) && Open(s, i, end) && Knows(g, h, end)
        && AtSlot(g, h, slot, i / BLOCK_SIZE)
      case RRead(h, slot, block, from, at) =>
        && first <= from < end && from <= at <= BlockEnd(from, end) && Open(s, from, end)
        && InBlock(s, g, h, slot, block, from, end)
      case RCount(h, slot, block, from, to) =>
        && first <= from < end && to == BlockEnd(from, end) && Open(s, from, end)
        && InBlock(s, g, h, slot, block, from, end)
      case RNull(h, slot, block, from, to) =>
        && first <= from < end && to == BlockEnd(from, end) && Open(s, to, end)
        && InBlock(s, g, h, slot, block, from, end) && from / BLOCK_SIZE !in g.nulled
      case RFree(h, slot, block, from, to) =>
        && first <= from < end && to == BlockEnd(from, end) && Open(s, to, end)
        && InBlock(s, g, h, slot, block, from, end) && from / BLOCK_SIZE in g.nulled
      case RNext(h, slot, to) =>
        && first < to <= end && (to == end || to % BLOCK_SIZE == 0) && Open(s, to, end) && Knows(g, h, end)
        && AtSlot(g, h, slot, (to - 1) / BLOCK_SIZE)
  }

  /** The first index of its claim that a reader has not counted yet. */
  function Frontier(s: State, t: nat): nat
    requires t < |s.readers| == |s.c.threads| && s.c.threads[t].Reading?
  {
    var r := s.readers[t];
    if r.RValue? then r.i else if r.RRead? || r.RCount? then r.from
    else if r.RNull? || r.RFree? || r.RNext? then r.to else s.c.threads[t].first
  }

  ghost predicate InBlock(s: State, g: Ghosts, h: nat, slot: int, block: Ptr, i: nat, end: nat)
  {
    && Knows(g, h, end) && AtSlot(g, h, slot, i / BLOCK_SIZE)
    && i / BLOCK_SIZE < |g.pos| && block == At(g.pos[i / BLOCK_SIZE])
  }

  ghost predicate ReadersOk(s: State, g: Ghosts)
  {
    && |s.readers| == |s.c.threads|
    && (forall t: nat | t < |s.readers| :: ReaderOk(s, g, t))
    && (forall i | i in s.read :: i < s.c.head && i < |s.enqueued| && s.read[i] == s.enqueued[i])
  }

  ghost predicate IndexOk(s: State, g: Ghosts)
  {
    && ShapeOk(s, g) && KeysOk(s, g) && ValuesOk(s, g)
    && (forall j: nat | j < |s.headers| :: OlderOk(s, g, j))
  }

  ghost predicate Inv(s: State, g: Ghosts)
  {
    && C.Safe(s.c) && C.NoneEmpty(s.c)
    && IndexOk(s, g) && TailOk(s, g) && BlocksOk(s, g) && FinishedOk(s, g) && ReadersOk(s, g)
  }

  // ------------------------------------------------------------------ entries and slots

  lemma EntryPeriod(g: Ghosts, j: nat, x: int)
    requires j < |g.ix.index| == |g.ix.origin| && |g.ix.index[j]| > 0
    ensures EntryOf(g.ix, j, x + |g.ix.index[j]|) == EntryOf(g.ix, j, x)
  {
    WrapPeriod(x - g.ix.origin[j], |g.ix.index[j]|);
  }

  /** Fewer than a whole circle apart, different positions have different entries. */
  lemma EntriesApart(s: State, g: Ghosts, x: int, y: int)
    requires ShapeOk(s, g) && s.headers != [] && x < y < x + Cap(g.ix)
    ensures EntryOf(g.ix, Last(g.ix), x) != EntryOf(g.ix, Last(g.ix), y)
  {
    if EntryOf(g.ix, Last(g.ix), x) == EntryOf(g.ix, Last(g.ix), y) {
      WrapInjective(x - Origin(g.ix), y - Origin(g.ix), Cap(g.ix));
    }
  }

  lemma NextIsK(s: State, g: Ghosts)
    requires ShapeOk(s, g) && s.headers != [] && InsertOk(s, g) && TailAt(s, g) == g.k - 1
    ensures Indexed(s) && NextEntry(s) == EntryOf(g.ix, Last(g.ix), g.k)
    ensures NextSlot(s) == Wrap(g.k - Origin(g.ix), Cap(g.ix))
  {
    WrapAdd(g.k - 1 - Origin(g.ix), 1, Cap(g.ix));
  }

  // ------------------------------------------------------------------ what the groups imply

  lemma TailBelow(s: State, g: Ghosts)
    requires TailOk(s, g)
    ensures Positions(s.c.tail) <= g.k && s.c.tail <= BLOCK_SIZE * Positions(s.c.tail)
  {}

  lemma PositionBelow(i: nat, tail: nat)
    requires i < tail
    ensures i / BLOCK_SIZE < Positions(tail)
  {}

  /** A position with an index that is not finished has not been cleared or given back. */
  lemma OpenIsLive(s: State, g: Ghosts, i: nat)
    requires FinishedOk(s, g) && i !in s.finished && i < s.c.tail
    ensures i / BLOCK_SIZE !in g.nulled && s.freed[i / BLOCK_SIZE] == 0 && !Full(s.finished, i / BLOCK_SIZE)
  {
    PositionBelow(i, s.c.tail);
    assert BLOCK_SIZE * (i / BLOCK_SIZE) <= i < BLOCK_SIZE * (i / BLOCK_SIZE) + BLOCK_SIZE;
    assert ReleaseOk(s, i / BLOCK_SIZE);
    TotalNat(s.readers, Releasing(i / BLOCK_SIZE));
  }

  /** Every index that a reader may hold leads to the entry of a live position. */
  lemma SharedEntry(s: State, g: Ghosts, h: nat, p: nat)
    requires IndexOk(s, g) && h < |s.headers| && p < Hi(g, h) && p !in g.nulled
    ensures p < g.k && EntryOf(g.ix, h, p) == EntryOf(g.ix, Last(g.ix), p) < |s.entries|
    ensures s.entries[EntryOf(g.ix, h, p)].value == At(g.pos[p])
    ensures s.entries[EntryOf(g.ix, h, p)].key == BLOCK_SIZE * p
  {
    assert OlderOk(s, g, h) && Low(g) <= p;
    assert EntryAt(s.entries, g.ix, p).value == At(g.pos[p]);
    KeyBehind(s, g, p);
  }

  /** What the circle says of an inserted position: its key is in place, or that of the
      position a circle later, which then was cleared. */
  lemma KeyBehind(s: State, g: Ghosts, p: int)
    requires ShapeOk(s, g) && s.headers != [] && OldKeys(s, g) && Low(g) <= p < g.k
    ensures EntryAt(s.entries, g.ix, p).key == SlotKey(g, p + Cap(g.ix)) != INVALID_BLOCK_BASE
    ensures p !in g.nulled ==> EntryAt(s.entries, g.ix, p).key == BLOCK_SIZE * p
  {
    EntryPeriod(g, Last(g.ix), p);
    assert SlotOk(s, g, p + Cap(g.ix));
  }

  // ------------------------------------------------------------------ consumer steps

  ghost predicate SameIndex(s: State, s': State)
  {
    && s'.headers == s.headers && s'.entries == s.entries && s'.nextCapacity == s.nextCapacity
    && s'.tailBlock == s.tailBlock && s'.batch == s.batch && s'.producer == s.producer && s'.c.tail == s.c.tail
  }

  lemma IndexFrame(s: State, g: Ghosts, s': State)
    requires IndexOk(s, g) && TailOk(s, g) && SameIndex(s, s')
    ensures IndexOk(s', g) && TailOk(s', g)
  {
    assert ShapeOk(s', g);
    SameKeys(s, g, s', g);
  }

  /** Indices known to readers stay as good as they were. */
  lemma OlderFrame(s: State, g: Ghosts, s': State, g': Ghosts, j: nat)
    requires ShapeOk(s, g) && ShapeOk(s', g') && j < |s.headers| == |s'.headers| && OlderOk(s, g, j)
    requires g'.ix == g.ix && g'.k == g.k && g.nulled <= g'.nulled
    requires j < Last(g.ix) ==> s'.headers[j] == s.headers[j]
    requires forall e | 0 <= e < |s.entries| && s.entries[e].key != INVALID_BLOCK_BASE ::
      s'.entries[e].key != INVALID_BLOCK_BASE
    ensures OlderOk(s', g', j)
  {}

  ghost predicate SameBlocks(s: State, s': State)
  {
    && s'.elems == s.elems && s'.dequeued == s.dequeued && s'.ours == s.ours && s'.enqueued == s.enqueued
    && s'.finished == s.finished && s'.freed == s.freed
    && KeepsBlocks(s.producer, s'.producer)
    && s'.tailBlock == s.tailBlock && s'.batch == s.batch && s'.c.tail == s.c.tail && s'.c.head >= s.c.head
  }

  /** The producer says no more about its blocks than before. */
  predicate KeepsBlocks(pc: ProducerPc, pc': ProducerPc)
  {
    (pc'.PValue? || pc'.PGive? ==> pc' == pc) && (pc'.PWrite? ==> pc' == pc || pc'.at == 0)
  }

  lemma BlocksFrame(s: State, g: Ghosts, s': State)
    requires |g.pos| == g.k && BlocksOk(s, g) && SameBlocks(s, s')
    ensures BlocksOk(s', g)
  {
    forall p: nat | p < g.k && s'.freed[p] == 0 ensures UsedBlock(s', g, p) {
      assert UsedBlock(s, g, p);
    }
    SameWritten(s, g, s', g);
  }

  lemma SameWritten(s: State, g: Ghosts, s': State, g': Ghosts)
    requires |g.pos| == g.k && BlocksOk(s, g) && s'.elems == s.elems && s'.c.tail == s.c.tail && g'.pos == g.pos
    requires KeepsBlocks(s.producer, s'.producer)
    ensures s'.producer.PWrite? ==> forall a | 0 <= a < s'.producer.at :: WrittenOk(s', g', s'.producer.vs, a)
  {
    if s'.producer.PWrite? {
      forall a | 0 <= a < s'.producer.at ensures WrittenOk(s', g', s'.producer.vs, a) {
        assert WrittenOk(s, g, s.producer.vs, a);
      }
    }
  }

  predicate SameRelease(r: ReaderPc, r': ReaderPc)
  {
    if r.RNull? || r.RFree? then (r'.RNull? || r'.RFree?) && r'.from == r.from
    else !r'.RNull? && !r'.RFree?
  }

  lemma FinishedFrame(s: State, g: Ghosts, t: nat, s': State)
    requires FinishedOk(s, g) && t < |s.readers| == |s'.readers| && s'.readers == s.readers[t := s'.readers[t]]
    requires s'.finished == s.finished && s'.freed == s.freed && s'.c.head >= s.c.head && s'.c.tail == s.c.tail
    requires SameRelease(s.readers[t], s'.readers[t])
    ensures FinishedOk(s', g)
  {
    forall p: nat ensures ReleaseOk(s', p) {
      assert ReleaseOk(s, p);
      TotalUpdate(s.readers, t, s'.readers[t], Releasing(p));
    }
  }

  lemma ReaderFrame(s: State, g: Ghosts, u: nat, s': State)
    requires u < |s.readers| == |s'.readers| == |s.c.threads| == |s'.c.threads|
    requires s'.readers[u] == s.readers[u] && s'.c.threads[u] == s.c.threads[u]
    requires s'.entries == s.entries && s'.finished == s.finished && ReaderOk(s, g, u)
    ensures ReaderOk(s', g, u)
  {
    assert forall a, b | Open(s, a, b) :: Open(s', a, b);
  }

  /** Only reader t moves, and releases nothing. */
  lemma ReaderMove(s: State, g: Ghosts, t: nat, r: ReaderPc)
    requires Inv(s, g) && t < |s.readers| && ReaderOk(Go(s, t, r), g, t) && SameRelease(s.readers[t], r)
    ensures Inv(Go(s, t, r), g)
  {
    var s' := Go(s, t, r);
    IndexFrame(s, g, s');
    BlocksFrame(s, g, s');
    FinishedFrame(s, g, t, s');
    forall u: nat | u < |s'.readers| ensures ReaderOk(s', g, u) {
      if u != t { ReaderFrame(s, g, u, s'); }
    }
  }

  lemma StartKeeps(s: State, g: Ghosts, t: nat)
    requires Inv(s, g) && t < |s.readers| && s.c.threads[t].Reading? && s.readers[t].RStart? && s.headers != []
    ensures Inv(Go(s, t, RTail(|s.headers| - 1)), g)
  {
    assert ReaderOk(s, g, t);
    C.ClaimBelowTail(s.c, t);
    TailBelow(s, g);
    ReaderMove(s, g, t, RTail(|s.headers| - 1));
  }

  lemma LookupKeeps(s: State, g: Ghosts, t: nat, s': State)
    requires Inv(s, g) && LookupStep(s, t, s')
    ensures Inv(s', g)
  {
    match s.readers[t]
    case RStart => StartKeeps(s, g, t);
    case RTail(h) => TailKeeps(s, g, t, h);
    case RKey(h, q) => KeyKeeps(s, g, t, h, q);
    case RValue(h, slot, i) => ValueKeeps(s, g, t, h, slot, i);
  }

  lemma TailKeeps(s: State, g: Ghosts, t: nat, h: nat)
    requires Inv(s, g) && t < |s.readers| && s.c.threads[t].Reading? && s.readers[t] == RTail(h)
    ensures h < |s.headers| && Inv(Go(s, t, RKey(h, s.headers[h].tail)), g)
  {
    assert ReaderOk(s, g, t) && OlderOk(s, g, h) && C.AsksSome(s.c.threads[t]);
    C.ClaimBelowTail(s.c, t);
    OpenIsLive(s, g, s.c.threads[t].first);
    TailBelow(s, g);
    PositionBelow(s.c.threads[t].first, s.c.tail);
    TailKeyValid(s, g, h, s.c.threads[t].first / BLOCK_SIZE);
    ReaderMove(s, g, t, RKey(h, s.headers[h].tail));
  }

  /** While any position is live, the tail of every index has a valid key. */
  lemma TailKeyValid(s: State, g: Ghosts, h: nat, p: nat)
    requires IndexOk(s, g) && TailOk(s, g) && h < |s.headers| && p < Positions(s.c.tail) && p !in g.nulled
    ensures g.ix.index[h][s.headers[h].tail] < |s.entries|
    ensures s.entries[g.ix.index[h][s.headers[h].tail]].key != INVALID_BLOCK_BASE
  {
    assert OlderOk(s, g, h);
    TailBelow(s, g);
    if h == Last(g.ix) {
      var x := TailAt(s, g);
      assert g.ix.index[h][s.headers[h].tail] == EntryOf(g.ix, h, x);
      if x == g.k {
        assert SlotOk(s, g, x);
      } else {
        KeyBehind(s, g, x);
      }
    }
  }

  lemma KeyKeeps(s: State, g: Ghosts, t: nat, h: nat, q: int)
    requires Inv(s, g) && t < |s.readers| && s.c.threads[t].Reading? && s.readers[t] == RKey(h, q)
    ensures InIndex(s, h, q)
    ensures Inv(Go(s, t, RValue(h, LookupSlot(q, s.entries[s.headers[h].index[q]].key, s.c.threads[t].first,
                                              s.headers[h].capacity), s.c.threads[t].first)), g)
  {
    KeyLeads(s, g, t, h, q);
    var first := s.c.threads[t].first;
    ReaderMove(s, g, t, RValue(h, LookupSlot(q, s.entries[s.headers[h].index[q]].key, first, s.headers[h].capacity),
                               first));
  }

  lemma KeyLeads(s: State, g: Ghosts, t: nat, h: nat, q: int)
    requires C.NoneEmpty(s.c) && IndexOk(s, g) && ReadersOk(s, g)
    requires t < |s.readers| && s.c.threads[t].Reading? && s.readers[t] == RKey(h, q)
    ensures InIndex(s, h, q)
    ensures ReaderOk(Go(s, t, RValue(h, LookupSlot(q, s.entries[s.headers[h].index[q]].key, s.c.threads[t].first,
                                                   s.headers[h].capacity), s.c.threads[t].first)), g, t)
  {
    assert ReaderOk(s, g, t);
    assert C.AsksSome(s.c.threads[t]);
    SlotOfKey(s, g, h, q);
    LookupLeads(q, s.entries[g.ix.index[h][q]].key, s.c.threads[t].first, g.ix.origin[h], |g.ix.index[h]|);
  }

  /** From any slot whose key is congruent to it, the signed offset leads to the slot of
      the wanted position, whatever position that slot holds by now. */
  lemma LookupLeads(q: int, key: int, i: nat, o: int, n: nat)
    requires n > 0 && key % BLOCK_SIZE == 0 && Wrap(key / BLOCK_SIZE - o, n) == q
    ensures LookupSlot(q, key, i, n) == Wrap(i / BLOCK_SIZE - o, n)
  {
    var y := key / BLOCK_SIZE;
    assert (BlockBase(i) - key) / BLOCK_SIZE == i / BLOCK_SIZE - y;
    WrapAdd(y - o, i / BLOCK_SIZE - y, n);
    assert (y - o) + (i / BLOCK_SIZE - y) == i / BLOCK_SIZE - o;
  }

  /** Whatever valid key an index finds at a slot, the position it names belongs there. */
  lemma SlotOfKey(s: State, g: Ghosts, h: nat, q: int)
    requires IndexOk(s, g) && h < |s.headers| && 0 <= q < |g.ix.index[h]|
    requires g.ix.index[h][q] < |s.entries| && s.entries[g.ix.index[h][q]].key != INVALID_BLOCK_BASE
    ensures var key := s.entries[g.ix.index[h][q]].key;
      key % BLOCK_SIZE == 0 && Wrap(key / BLOCK_SIZE - g.ix.origin[h], |g.ix.index[h]|) == q
  {
    var e := g.ix.index[h][q];
    assert KeyOk(s, g, e) && OlderOk(s, g, h);
    var y := s.entries[e].key / BLOCK_SIZE;
    assert EntryOf(g.ix, Last(g.ix), y) == e;
    assert EntryOf(g.ix, h, y) == e;
  }

  lemma ValueKeeps(s: State, g: Ghosts, t: nat, h: nat, slot: int, i: nat)
    requires Inv(s, g) && t < |s.readers| && s.c.threads[t].Reading? && s.readers[t] == RValue(h, slot, i)
    ensures InIndex(s, h, slot)
    ensures Inv(Go(s, t, RRead(h, slot, s.entries[s.headers[h].index[slot]].value, i, i)), g)
  {
    assert ReaderOk(s, g, t);
    FindBlock(s, g, t, h, slot, i);
    ReaderMove(s, g, t, RRead(h, slot, s.entries[s.headers[h].index[slot]].value, i, i));
  }

  /** The slot a reader computed holds its key and its block. */
  lemma FindBlock(s: State, g: Ghosts, t: nat, h: nat, slot: int, i: nat)
    requires Inv(s, g) && t < |s.readers| && s.c.threads[t].Reading? && s.readers[t] == RValue(h, slot, i)
    ensures InIndex(s, h, slot)
    ensures s.entries[s.headers[h].index[slot]].key == BlockBase(i)
    ensures i / BLOCK_SIZE < g.k && s.entries[s.headers[h].index[slot]].value == At(g.pos[i / BLOCK_SIZE])
  {
    assert ReaderOk(s, g, t);
    C.ClaimBelowTail(s.c, t);
    OpenIsLive(s, g, i);
    SharedEntry(s, g, h, i / BLOCK_SIZE);
  }

  lemma ReadKeeps(s: State, g: Ghosts, t: nat, s': State)
    requires Inv(s, g) && ReadStep(s, t, s')
    ensures Inv(s', g)
  {
    assert ReaderOk(s, g, t);
    var r := s.readers[t];
    ReadReader(s, g, t, s');
    ReaderMove(s, g, t, s'.readers[t]);
    if r.at < BlockEnd(r.from, C.ClaimEnd(s.c, t)) {
      ReadHistory(s, g, t, s');
      HistoryFrame(Go(s, t, s'.readers[t]), g, s');
    }
  }

  lemma ReadHistory(s: State, g: Ghosts, t: nat, s': State)
    requires Inv(s, g) && ReadStep(s, t, s') && s.readers[t].at < BlockEnd(s.readers[t].from, C.ClaimEnd(s.c, t))
    ensures s' == Go(s, t, s'.readers[t]).(read := s'.read)
    ensures forall i | i in s'.read :: i < s.c.head && i < |s.enqueued| && s'.read[i] == s.enqueued[i]
  {
    ReadValue(s, g, t);
  }

  lemma ReadReader(s: State, g: Ghosts, t: nat, s': State)
    requires ReadStep(s, t, s') && ReaderOk(s, g, t)
    ensures ReaderOk(Go(s, t, s'.readers[t]), g, t) && SameRelease(s.readers[t], s'.readers[t])
  {
    assert forall a, b | Open(s, a, b) :: Open(Go(s, t, s'.readers[t]), a, b);
  }

  lemma HistoryFrame(s: State, g: Ghosts, s': State)
    requires Inv(s, g) && s' == s.(read := s'.read)
    requires forall i | i in s'.read :: i < s.c.head && i < |s.enqueued| && s'.read[i] == s.enqueued[i]
    ensures Inv(s', g)
  {
    IndexFrame(s, g, s');
    BlocksFrame(s, g, s');
    forall p: nat ensures ReleaseOk(s', p) {
      assert ReleaseOk(s, p);
    }
    forall u: nat | u < |s'.readers| ensures ReaderOk(s', g, u) {
      ReaderFrame(s, g, u, s');
    }
  }

  /** The element a reader is about to move out is the one enqueued at its index. */
  lemma ReadValue(s: State, g: Ghosts, t: nat)
    requires C.Safe(s.c) && |g.pos| == g.k && BlocksOk(s, g) && FinishedOk(s, g) && ReadersOk(s, g)
    requires t < |s.readers| && s.c.threads[t].Reading? && s.readers[t].RRead?
    requires s.readers[t].at < BlockEnd(s.readers[t].from, C.ClaimEnd(s.c, t))
    ensures var r := s.readers[t];
      && r.at < s.c.head && r.at < |s.enqueued|
      && r.block.At? && r.block.block in s.elems && |s.elems[r.block.block]| == BLOCK_SIZE
      && s.elems[r.block.block][r.at % BLOCK_SIZE] == s.enqueued[r.at]
  {
    assert ReaderOk(s, g, t);
    C.ClaimBelowTail(s.c, t);
    var r := s.readers[t];
    OpenIsLive(s, g, r.from);
    ElementAt(s, g, r.from / BLOCK_SIZE, r.at);
  }

  lemma ElementAt(s: State, g: Ghosts, p: nat, i: nat)
    requires |g.pos| == g.k && BlocksOk(s, g) && p < g.k && s.freed[p] == 0
    requires BLOCK_SIZE * p <= i < BLOCK_SIZE * p + BLOCK_SIZE && i < s.c.tail
    ensures g.pos[p] in s.elems && |s.elems[g.pos[p]]| == BLOCK_SIZE && i < |s.enqueued|
    ensures s.elems[g.pos[p]][i % BLOCK_SIZE] == s.enqueued[i]
  {
    assert UsedBlock(s, g, p);
    assert i == BLOCK_SIZE * p + i % BLOCK_SIZE;
  }

  // ------------------------------------------------------------------ counting a block down

  lemma {:induction false} FinCountBounds(fin: set<nat>, a: nat, n: nat)
    ensures FinCount(fin, a, n) <= n
    ensures FinCount(fin, a, n) == n <==> forall i: nat | a <= i < a + n :: i in fin
  {
    if n > 0 { FinCountBounds(fin, a, n - 1); }
  }

  /** Finishing from .. to, all of it new, adds what lies in the counted range. */
  lemma {:induction false} FinCountAdd(fin: set<nat>, a: nat, n: nat, from: nat, to: nat)
    requires forall i: nat | from <= i < to :: i !in fin
    requires from <= to && ((a <= from && to <= a + n) || to <= a || a + n <= from || from == to)
    ensures FinCount(fin + Range(from, to), a, n)
         == FinCount(fin, a, n) + (if a <= from && to <= a + n then to - from else 0)
  {
    if from == to {
      assert fin + Range(from, to) == fin;
    } else if n > 0 {
      if a <= from && to == a + n {
        assert Range(from, to) == Range(from, to - 1) + {to - 1};
        FinCountAdd(fin, a, n - 1, from, to - 1);
        FinCountAlso(fin + Range(from, to - 1), a, n - 1, to - 1);
        assert fin + Range(from, to) == fin + Range(from, to - 1) + {to - 1};
      } else {
        FinCountAdd(fin, a, n - 1, from, to);
      }
    }
  }

  lemma {:induction false} FinCountAlso(fin: set<nat>, a: nat, n: nat, i: nat)
    requires a + n <= i
    ensures FinCount(fin + {i}, a, n) == FinCount(fin, a, n)
  {
    if n > 0 { FinCountAlso(fin, a, n - 1, i); }
  }

  lemma CountKeeps(s: State, g: Ghosts, t: nat, s': State)
    requires Inv(s, g) && ReleaseStep(s, t, s') && s.readers[t].RCount?
    ensures Inv(s', g)
  {
    assert ReaderOk(s, g, t);
    C.ClaimBelowTail(s.c, t);
    var r := s.readers[t];
    var p := r.from / BLOCK_SIZE;
    OpenIsLive(s, g, r.from);
    assert BLOCK_SIZE * p <= r.from && r.to <= BLOCK_SIZE * p + BLOCK_SIZE;
    IndexFrame(s, g, s');
    CountBlocks(s, g, t, s', p);
    CountFinished(s, g, t, s', p);
    forall u: nat | u < |s'.readers| ensures ReaderOk(s', g, u) {
      CountReader(s, g, t, s', u);
    }
  }

  /** Thread t counts from .. to of position p, none of which was finished. */
  ghost predicate Counting(s: State, g: Ghosts, t: nat, s': State, p: nat)
  {
    && ReleaseStep(s, t, s') && s.readers[t].RCount?
    && var r := s.readers[t];
    && p < g.k == |g.pos| && s.freed[p] == 0 && r.block == At(g.pos[p]) && p == r.from / BLOCK_SIZE
    && BLOCK_SIZE * p <= r.from < r.to <= BLOCK_SIZE * p + BLOCK_SIZE
    && Open(s, r.from, r.to) && r.to <= s.c.head
  }

  lemma CountBlocks(s: State, g: Ghosts, t: nat, s': State, p: nat)
    requires |g.pos| == g.k && BlocksOk(s, g) && Counting(s, g, t, s', p)
    ensures BlocksOk(s', g)
  {
    var r := s.readers[t];
    forall q: nat | q < g.k && s'.freed[q] == 0 ensures UsedBlock(s', g, q) {
      assert UsedBlock(s, g, q) && UsedBlock(s, g, p);
      FinCountAdd(s.finished, BLOCK_SIZE * q, BLOCK_SIZE, r.from, r.to);
    }
    SameWritten(s, g, s', g);
  }

  lemma CountFinished(s: State, g: Ghosts, t: nat, s': State, p: nat)
    requires |g.pos| == g.k && BlocksOk(s, g) && FinishedOk(s, g) && Counting(s, g, t, s', p)
    ensures FinishedOk(s', g)
  {
    var r := s.readers[t];
    forall q | q in g.nulled && q < Positions(s.c.tail) ensures Full(s'.finished, q) {
      assert Full(s.finished, q);
    }
    forall q: nat ensures ReleaseOk(s', q) {
      assert ReleaseOk(s, q);
      TotalUpdate(s.readers, t, s'.readers[t], Releasing(q));
      if q == p {
        CountFull(s, g, t, s', p);
      } else {
        OtherFull(s.finished, q, p, r.from, r.to);
      }
    }
  }

  lemma OtherFull(fin: set<nat>, q: nat, p: nat, from: nat, to: nat)
    requires q != p && BLOCK_SIZE * p <= from && to <= BLOCK_SIZE * p + BLOCK_SIZE
    ensures Full(fin + Range(from, to), q) == Full(fin, q)
  {
    if Full(fin + Range(from, to), q) {
      forall i: nat | BLOCK_SIZE * q <= i < BLOCK_SIZE * q + BLOCK_SIZE ensures i in fin {
        assert i in fin + Range(from, to) && i !in Range(from, to);
      }
    }
  }

  /** The block is full of finished elements exactly when the counter says so. */
  lemma CountFull(s: State, g: Ghosts, t: nat, s': State, p: nat)
    requires |g.pos| == g.k && BlocksOk(s, g) && Counting(s, g, t, s', p)
    ensures !Full(s.finished, p) && (Full(s'.finished, p) <==> s'.readers[t].RNull?)
  {
    var r := s.readers[t];
    assert UsedBlock(s, g, p) && r.from !in s.finished;
    FinCountAdd(s.finished, BLOCK_SIZE * p, BLOCK_SIZE, r.from, r.to);
    FinCountBounds(s'.finished, BLOCK_SIZE * p, BLOCK_SIZE);
  }

  lemma CountReader(s: State, g: Ghosts, t: nat, s': State, u: nat)
    requires C.Safe(s.c) && ReadersOk(s, g) && FinishedOk(s, g) && ReleaseStep(s, t, s') && s.readers[t].RCount?
    requires u < |s.readers| && |g.ix.index| == |g.ix.origin| == |g.ix.hi|
    ensures ReaderOk(s', g, u)
  {
    assert ReaderOk(s, g, u) && ReaderOk(s, g, t);
    var r := s.readers[t];
    assert s'.finished == s.finished + Range(r.from, r.to);
    if u == t {
      C.ClaimBelowTail(s.c, t);
      OpenIsLive(s, g, r.from);
      CountedReader(s, g, t, s');
    } else {
      C.ClaimsApart(s.c, t, u);
      OtherReader(s, g, s', r.from, r.to, u);
    }
  }

  lemma CountedReader(s: State, g: Ghosts, t: nat, s': State)
    requires t < |s.readers| && ReleaseStep(s, t, s') && s.readers[t].RCount? && ReaderOk(s, g, t)
    requires s.readers[t].from / BLOCK_SIZE !in g.nulled
    ensures ReaderOk(s', g, t)
  {
    var r := s.readers[t];
    assert (r.to - 1) / BLOCK_SIZE == r.from / BLOCK_SIZE;
    assert forall i: nat | r.to <= i < C.ClaimEnd(s.c, t) :: i !in s.finished && i !in Range(r.from, r.to);
  }

  lemma OtherReader(s: State, g: Ghosts, s': State, from: nat, to: nat, u: nat)
    requires u < |s.readers| == |s'.readers| == |s.c.threads| && s'.c == s.c && s'.entries == s.entries
    requires s'.finished == s.finished + Range(from, to) && s'.readers[u] == s.readers[u] && ReaderOk(s, g, u)
    requires |g.ix.index| == |g.ix.origin| == |g.ix.hi|
    requires s.c.threads[u].Reading? ==> to <= s.c.threads[u].first || C.ClaimEnd(s.c, u) <= from
    ensures ReaderOk(s', g, u)
  {
    if s.c.threads[u].Reading? {
      FrontierOpen(s, g, u);
      assert Open(s', Frontier(s, u), C.ClaimEnd(s.c, u));
      ExtendsSees(s, g, s', g, C.ClaimEnd(s.c, u));
    }
    ReaderKept(s, g, s', g, u);
  }

  lemma FrontierOpen(s: State, g: Ghosts, u: nat)
    requires u < |s.readers| == |s.c.threads| && ReaderOk(s, g, u) && s.c.threads[u].Reading?
    ensures s.c.threads[u].first <= Frontier(s, u) && Open(s, Frontier(s, u), C.ClaimEnd(s.c, u))
  {}

  // ------------------------------------------------------------------ giving a block back

  lemma NullKeeps(s: State, g: Ghosts, t: nat, s': State) returns (g': Ghosts)
    requires Inv(s, g) && ReleaseStep(s, t, s') && s.readers[t].RNull?
    ensures Inv(s', g')
  {
    assert ReaderOk(s, g, t);
    var r := s.readers[t];
    var p := r.from / BLOCK_SIZE;
    g' := g.(nulled := g.nulled + {p});
    OnlyReleaser(s, t, p);
    NulledEntry(s, g, t);
    ClearKeeps(s, g, p, s', g');
    C.ClaimBelowTail(s.c, t);
    PositionBelow(r.from, s.c.tail);
    NulledTail(s, g, p, s', g');
    NulledBlocks(s, g, p, g');
    BlocksFrame(s, g', s');
    FinishedFrame(s, g', t, s');
    NulledReaders(s, g, t, s', g');
  }

  lemma NulledTail(s: State, g: Ghosts, p: nat, s': State, g': Ghosts)
    requires TailOk(s, g) && p < Positions(s.c.tail) && g' == g.(nulled := g.nulled + {p})
    requires s'.headers == s.headers && s'.batch == s.batch && s'.producer == s.producer && s'.c.tail == s.c.tail
    requires s'.tailBlock == s.tailBlock
    ensures TailOk(s', g')
  {}

  /** The entry that a releasing consumer clears is that of its position. */
  lemma NulledEntry(s: State, g: Ghosts, t: nat)
    requires IndexOk(s, g) && t < |s.readers| == |s.c.threads| && s.c.threads[t].Reading? && s.readers[t].RNull?
    requires ReaderOk(s, g, t)
    ensures var r := s.readers[t];
      && r.h < |s.headers| && 0 <= r.slot < |s.headers[r.h].index| && r.from / BLOCK_SIZE < g.k
      && s.headers[r.h].index[r.slot] == EntryOf(g.ix, Last(g.ix), r.from / BLOCK_SIZE) < |s.entries|
  {
    SharedEntry(s, g, s.readers[t].h, s.readers[t].from / BLOCK_SIZE);
  }

  lemma NulledBlocks(s: State, g: Ghosts, p: nat, g': Ghosts)
    requires |g.pos| == g.k && BlocksOk(s, g) && FinishedOk(s, g) && p < g.k && Full(s.finished, p)
    requires g' == g.(nulled := g.nulled + {p})
    ensures BlocksOk(s, g') && FinishedOk(s, g')
  {
    forall q: nat | q < g'.k && s.freed[q] == 0 ensures UsedBlock(s, g', q) {
      assert UsedBlock(s, g, q);
    }
    SameWritten(s, g, s, g');
  }

  lemma NulledReaders(s: State, g: Ghosts, t: nat, s': State, g': Ghosts)
    requires t < |s.readers| && ReleaseStep(s, t, s') && s.readers[t].RNull? && ReadersOk(s, g)
    requires g' == g.(nulled := g.nulled + {s.readers[t].from / BLOCK_SIZE})
    requires |g.ix.index| == |g.ix.origin| == |g.ix.hi|
    requires forall u | 0 <= u < |s.readers| && u != t :: !Releases(s.readers[u], s.readers[t].from / BLOCK_SIZE)
    ensures ReadersOk(s', g')
  {
    assert Extends(s, g, s', g');
    forall u: nat | u < |s'.readers| ensures ReaderOk(s', g', u) {
      assert ReaderOk(s, g, u);
      if u != t {
        ReaderExtends(s, g, s', g', u);
      } else {
        NulledReader(s, g, t, s', g');
      }
    }
  }

  lemma NulledReader(s: State, g: Ghosts, t: nat, s': State, g': Ghosts)
    requires t < |s.readers| && ReleaseStep(s, t, s') && s.readers[t].RNull? && ReaderOk(s, g, t)
    requires g' == g.(nulled := g.nulled + {s.readers[t].from / BLOCK_SIZE})
    ensures ReaderOk(s', g', t)
  {
    assert forall a, b | Open(s, a, b) :: Open(s', a, b);
  }

  /** The consumer in charge of a position is the only one, and the block is full. */
  lemma OnlyReleaser(s: State, t: nat, p: nat)
    requires (forall q: nat :: ReleaseOk(s, q)) && t < |s.readers| && Releases(s.readers[t], p)
    ensures Full(s.finished, p) && s.freed[p] == 0
    ensures forall u | 0 <= u < |s.readers| && u != t :: !Releases(s.readers[u], p)
  {
    assert ReleaseOk(s, p);
    TotalAtLeast(s.readers, Releasing(p), t);
    forall u: nat | u < |s.readers| && u != t ensures !Releases(s.readers[u], p) {
      if Releases(s.readers[u], p) {
        var rest := s.readers[t := RNone];
        TotalUpdate(s.readers, t, RNone, Releasing(p));
        TotalAtLeast(rest, Releasing(p), u);
      }
    }
  }

  /** Positions, indices and valid keys are only added. */
  ghost predicate Extends(s: State, g: Ghosts, s': State, g': Ghosts)
  {
    && |s'.readers| == |s.readers|
    && |s.entries| <= |s'.entries| && g.pos <= g'.pos
    && (forall e | 0 <= e < |s.entries| && s.entries[e].key != INVALID_BLOCK_BASE ::
          s'.entries[e].key != INVALID_BLOCK_BASE)
    && |g.ix.index| == |g.ix.origin| == |g.ix.hi| <= |g'.ix.index| == |g'.ix.origin| == |g'.ix.hi|
    && (forall j | 0 <= j < |g.ix.index| ::
          g'.ix.index[j] == g.ix.index[j] && g'.ix.origin[j] == g.ix.origin[j] && Hi(g', j) >= Hi(g, j))
  }

  /** Everything a reader with a claim up to end may rely on stays. */
  ghost predicate Sees(s: State, g: Ghosts, s': State, g': Ghosts, end: nat)
  {
    && |s.entries| <= |s'.entries|
    && (forall e | 0 <= e < |s.entries| && s.entries[e].key != INVALID_BLOCK_BASE ::
          s'.entries[e].key != INVALID_BLOCK_BASE)
    && (forall h: nat | Knows(g, h, end) ::
          Knows(g', h, end) && g'.ix.index[h] == g.ix.index[h] && g'.ix.origin[h] == g.ix.origin[h])
    && (forall p | 0 <= p < |g.pos| && BLOCK_SIZE * p < end :: p < |g'.pos| && g'.pos[p] == g.pos[p])
  }

  lemma ExtendsSees(s: State, g: Ghosts, s': State, g': Ghosts, end: nat)
    requires Extends(s, g, s', g')
    ensures Sees(s, g, s', g', end)
  {
    forall h: nat | Knows(g, h, end)
      ensures Knows(g', h, end) && g'.ix.index[h] == g.ix.index[h] && g'.ix.origin[h] == g.ix.origin[h]
    {
      assert Hi(g', h) >= Hi(g, h);
    }
  }

  lemma ReaderKept(s: State, g: Ghosts, s': State, g': Ghosts, u: nat)
    requires u < |s.readers| == |s'.readers| == |s.c.threads| == |s'.c.threads|
    requires s.c.threads[u].Reading? ==> Sees(s, g, s', g', C.ClaimEnd(s.c, u))
    requires s'.readers[u] == s.readers[u] && s'.c.threads[u] == s.c.threads[u] && ReaderOk(s, g, u)
    requires s.c.threads[u].Reading? ==> Open(s', Frontier(s, u), C.ClaimEnd(s.c, u))
    requires s.readers[u].RNull? ==> s.readers[u].from / BLOCK_SIZE !in g'.nulled
    requires s.readers[u].RFree? ==> s.readers[u].from / BLOCK_SIZE in g'.nulled
    ensures ReaderOk(s', g', u)
  {
    if s.c.threads[u].Reading? && !s.readers[u].RNone? && !s.readers[u].RStart? {
      assert Knows(g, s.readers[u].h, C.ClaimEnd(s.c, u));
    }
  }

  lemma ReaderExtends(s: State, g: Ghosts, s': State, g': Ghosts, u: nat)
    requires Extends(s, g, s', g') && u < |s.readers| == |s.c.threads| == |s'.c.threads|
    requires s'.finished == s.finished
    requires s'.readers[u] == s.readers[u] && s'.c.threads[u] == s.c.threads[u] && ReaderOk(s, g, u)
    requires s.readers[u].RNull? ==> s.readers[u].from / BLOCK_SIZE !in g'.nulled
    requires s.readers[u].RFree? ==> s.readers[u].from / BLOCK_SIZE in g'.nulled
    ensures ReaderOk(s', g', u)
  {
    if s.c.threads[u].Reading? {
      FrontierOpen(s, g, u);
      assert Open(s', Frontier(s, u), C.ClaimEnd(s.c, u));
      ExtendsSees(s, g, s', g', C.ClaimEnd(s.c, u));
    }
    ReaderKept(s, g, s', g', u);
  }

  /** Clearing the entry of a live position. */
  lemma ClearKeeps(s: State, g: Ghosts, p: nat, s': State, g': Ghosts)
    requires IndexOk(s, g) && s.headers != [] && p < g.k && p !in g.nulled
    requires g' == g.(nulled := g.nulled + {p})
    requires EntryOf(g.ix, Last(g.ix), p) < |s.entries|
    requires s'.entries == s.entries[EntryOf(g.ix, Last(g.ix), p) :=
                                       s.entries[EntryOf(g.ix, Last(g.ix), p)].(value := Null)]
    requires s'.headers == s.headers && s'.nextCapacity == s.nextCapacity
    requires SamePhase(s.producer, s'.producer)
    ensures IndexOk(s', g')
  {
    assert ShapeOk(s', g');
    SameKeys(s, g, s', g');
    forall q | Low(g') <= q < g'.k
      ensures EntryAt(s'.entries, g'.ix, q).value == if q in g'.nulled then Null else At(g'.pos[q])
    {
      ClearedValue(s, g, p, s'.entries, q);
    }
  }

  lemma ClearedValue(s: State, g: Ghosts, p: nat, entries': seq<Entry>, q: int)
    requires ShapeOk(s, g) && ValuesOk(s, g) && s.headers != [] && p < g.k && p !in g.nulled
    requires EntryOf(g.ix, Last(g.ix), p) < |s.entries| == |entries'|
    requires entries' == s.entries[EntryOf(g.ix, Last(g.ix), p) :=
                                     s.entries[EntryOf(g.ix, Last(g.ix), p)].(value := Null)]
    requires Low(g) <= q < g.k
    ensures EntryAt(entries', g.ix, q).value == if q in g.nulled + {p} then Null else At(g.pos[q])
  {
    assert Low(g) <= p;
    assert EntryAt(s.entries, g.ix, q).value == if q in g.nulled then Null else At(g.pos[q]);
    if q < p { EntriesApart(s, g, q, p); } else if p < q { EntriesApart(s, g, p, q); }
  }

  /** The same point of an insertion, as far as the index goes. */
  predicate SamePhase(pc: ProducerPc, pc': ProducerPc)
  {
    && Inserting(pc') == Inserting(pc) && Ahead(pc') == Ahead(pc) && Back(pc') == Back(pc)
    && (pc'.PGrow? ==> pc.PGrow?) && (pc'.PKey? ==> pc.PKey?)
  }

  /** At most a value was cleared: keys, tails and links stay. */
  lemma SameKeys(s: State, g: Ghosts, s': State, g': Ghosts)
    requires ShapeOk(s, g) && KeysOk(s, g) && ShapeOk(s', g') && (forall j: nat | j < |s.headers| :: OlderOk(s, g, j))
    requires g' == g.(nulled := g'.nulled) && g.nulled <= g'.nulled
    requires s'.headers == s.headers && SamePhase(s.producer, s'.producer) && |s'.entries| == |s.entries|
    requires forall e | 0 <= e < |s.entries| ::
      && s'.entries[e].key == s.entries[e].key
      && (s'.entries[e].value == s.entries[e].value || s'.entries[e].value == Null)
    ensures KeysOk(s', g') && forall j: nat | j < |s'.headers| :: OlderOk(s', g', j)
  {
    if s.headers != [] {
      SameOldKeys(s, g, s', g');
    }
    forall j: nat | j < |s'.headers| ensures OlderOk(s', g', j) {
      OlderFrame(s, g, s', g', j);
    }
  }

  lemma SameOldKeys(s: State, g: Ghosts, s': State, g': Ghosts)
    requires ShapeOk(s, g) && s.headers != [] && OldKeys(s, g) && ShapeOk(s', g') && s'.headers != []
    requires g' == g.(nulled := g'.nulled) && g.nulled <= g'.nulled && |s'.entries| == |s.entries|
    requires Inserting(s.producer) ==> Inserting(s'.producer) || EntryAt(s'.entries, g.ix, g.k).value == Null
    requires forall e | 0 <= e < |s.entries| ::
      && s'.entries[e].key == s.entries[e].key
      && (s'.entries[e].value == s.entries[e].value || s'.entries[e].value == Null)
    ensures OldKeys(s', g')
  {
    forall e | 0 <= e < |s'.entries| ensures KeyOk(s', g', e) {
      assert KeyOk(s, g, e);
    }
    forall x | g'.k <= x < g'.k + Cap(g'.ix) ensures SlotOk(s', g', x) {
      assert SlotOk(s, g, x);
    }
  }

  lemma FreeKeeps(s: State, g: Ghosts, t: nat, s': State)
    requires Inv(s, g) && ReleaseStep(s, t, s') && s.readers[t].RFree?
    ensures Inv(s', g)
  {
    assert ReaderOk(s, g, t);
    OnlyReleaser(s, t, s.readers[t].from / BLOCK_SIZE);
    IndexFrame(s, g, s');
    FreedBlocks(s, g, t, s');
    FreedFinished(s, g, t, s');
    FreedReaders(s, g, t, s');
  }

  lemma FreedBlocks(s: State, g: Ghosts, t: nat, s': State)
    requires |g.pos| == g.k && BlocksOk(s, g) && ReleaseStep(s, t, s') && s.readers[t].RFree?
    requires var p := s.readers[t].from / BLOCK_SIZE;
      p < g.k && s.freed[p] == 0 && s.readers[t].block == At(g.pos[p])
    ensures BlocksOk(s', g)
  {
    forall q: nat | q < g.k && s'.freed[q] == 0 ensures UsedBlock(s', g, q) {
      assert UsedBlock(s, g, q);
    }
    SameWritten(s, g, s', g);
  }

  lemma FreedFinished(s: State, g: Ghosts, t: nat, s': State)
    requires FinishedOk(s, g) && ReleaseStep(s, t, s') && s.readers[t].RFree?
    requires s.readers[t].from / BLOCK_SIZE in g.nulled
    ensures FinishedOk(s', g)
  {
    forall q: nat ensures ReleaseOk(s', q) {
      assert ReleaseOk(s, q);
      TotalUpdate(s.readers, t, s'.readers[t], Releasing(q));
    }
  }

  lemma FreedReaders(s: State, g: Ghosts, t: nat, s': State)
    requires ReadersOk(s, g) && ReleaseStep(s, t, s') && s.readers[t].RFree?
    ensures forall u: nat | u < |s'.readers| :: ReaderOk(s', g, u)
  {
    forall u: nat | u < |s'.readers| ensures ReaderOk(s', g, u) {
      assert ReaderOk(s, g, u);
      if u != t {
        ReaderFrame(s, g, u, s');
      } else {
        var r := s.readers[t];
        assert (r.to - 1) / BLOCK_SIZE == r.from / BLOCK_SIZE;
        assert forall a, b | Open(s, a, b) :: Open(s', a, b);
      }
    }
  }

  lemma AdvanceKeeps(s: State, g: Ghosts, t: nat, s': State)
    requires Inv(s, g) && ReleaseStep(s, t, s') && s.readers[t].RNext? && C.Safe(s'.c) && C.NoneEmpty(s'.c)
    ensures Inv(s', g)
  {
    assert ReaderOk(s, g, t);
    var r := s.readers[t];
    if r.to < C.ClaimEnd(s.c, t) {
      AdvancedReader(s, g, t, s');
      ReaderMove(s, g, t, s'.readers[t]);
    } else {
      DoneKeeps(s, g, t, s');
    }
  }

  lemma DoneKeeps(s: State, g: Ghosts, t: nat, s': State)
    requires Inv(s, g) && ReleaseStep(s, t, s') && s.readers[t].RNext? && C.Safe(s'.c) && C.NoneEmpty(s'.c)
    requires s.readers[t].to >= C.ClaimEnd(s.c, t)
    ensures Inv(s', g)
  {
    C.ReadingEnds(s.c, t, s'.c);
    CounterMove(s, g, t, s');
  }

  lemma AdvancedReader(s: State, g: Ghosts, t: nat, s': State)
    requires t < |s.readers| && ReleaseStep(s, t, s') && s.readers[t].RNext? && ReaderOk(s, g, t)
    requires s.readers[t].to < C.ClaimEnd(s.c, t) && s.headers[s.readers[t].h].capacity == |g.ix.index[s.readers[t].h]|
    ensures ReaderOk(s', g, t)
  {
    var r := s.readers[t];
    WrapNext((r.to - 1) / BLOCK_SIZE, g.ix.origin[r.h], |g.ix.index[r.h]|);
    assert r.to / BLOCK_SIZE == (r.to - 1) / BLOCK_SIZE + 1;
    assert forall a, b | Open(s, a, b) :: Open(s', a, b);
  }

  /** Thread t steps on the counters, from or to a claim or neither. */
  lemma CounterMove(s: State, g: Ghosts, t: nat, s': State)
    requires Inv(s, g) && t < |s.readers| && C.ThreadStep(s.c, t, s'.c) && C.Safe(s'.c) && C.NoneEmpty(s'.c)
    requires s.readers[t].RNone? || s.readers[t].RNext?
    requires s' == Go(s, t, if s'.c.threads[t].Reading? then RStart else RNone).(c := s'.c)
    ensures Inv(s', g)
  {
    C.CounterFacts(s.c, t, s'.c);
    IndexFrame(s, g, s');
    BlocksFrame(s, g, s');
    FinishedFrame(s, g, t, s');
    forall u: nat | u < |s'.readers| ensures ReaderOk(s', g, u) {
      if u != t { ReaderFrame(s, g, u, s'); }
    }
  }

}
