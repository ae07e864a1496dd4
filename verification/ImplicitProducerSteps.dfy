/** Every producer step of the implicit producer keeps the invariant of module
    ImplicitProducerProof: inserting blocks into the index, growing it, filling blocks and
    publishing, and undoing all of that when an enqueue fails. */
module ImplicitProducerSteps {
  import opened Totals
  import opened Blocks
  import opened Modular
  import opened ImplicitProducer
  import opened ImplicitProducerProof
  import C = DequeueCounters

  // ------------------------------------------------------------------ steps on the index alone

  /** A producer step that touches only the index and the producer's place. */
  lemma IndexStep(s: State, g: Ghosts, s': State, g': Ghosts)
    requires Inv(s, g) && Extends(s, g, s', g') && IndexOk(s', g') && TailOk(s', g')
    requires s' == s.(headers := s'.headers, entries := s'.entries, nextCapacity := s'.nextCapacity,
                      producer := s'.producer)
    requires g' == g.(ix := g'.ix, top := g'.top) && KeepsBlocks(s.producer, s'.producer)
    ensures Inv(s', g')
  {
    BlocksStep(s, g, s', g');
    FinishedStep(s, g, s', g');
    ReadersStep(s, g, s', g');
  }

  lemma BlocksStep(s: State, g: Ghosts, s': State, g': Ghosts)
    requires |g.pos| == g.k && BlocksOk(s, g) && SameBlocks(s, s')
    requires g' == g.(ix := g'.ix, top := g'.top, nulled := g'.nulled)
    ensures BlocksOk(s', g')
  {
    forall q: nat | q < g'.k && s'.freed[q] == 0 ensures UsedBlock(s', g', q) {
      assert UsedBlock(s, g, q);
    }
    SameWritten(s, g, s', g');
  }

  lemma FinishedStep(s: State, g: Ghosts, s': State, g': Ghosts)
    requires FinishedOk(s, g) && g'.nulled == g.nulled && g.k <= g'.k && s'.c.tail == s.c.tail
    requires s'.finished == s.finished && s'.freed == s.freed && s'.c.head == s.c.head && s'.readers == s.readers
    ensures FinishedOk(s', g')
  {
    forall p: nat ensures ReleaseOk(s', p) {
      assert ReleaseOk(s, p);
    }
  }

  lemma ReadersStep(s: State, g: Ghosts, s': State, g': Ghosts)
    requires ReadersOk(s, g) && Extends(s, g, s', g') && g'.nulled == g.nulled
    requires s'.readers == s.readers && s'.c.threads == s.c.threads && s'.c.head == s.c.head
    requires s'.finished == s.finished && s'.read == s.read && s.enqueued <= s'.enqueued
    ensures ReadersOk(s', g')
  {
    forall u: nat | u < |s'.readers| ensures ReaderOk(s', g', u) {
      assert ReaderOk(s, g, u);
      ReaderExtends(s, g, s', g', u);
    }
  }

  /** Only the producer's place changes. */
  lemma PlaceStep(s: State, g: Ghosts, s': State)
    requires Inv(s, g) && s' == s.(producer := s'.producer) && TailOk(s', g) && ShapeOk(s', g)
    requires s.headers != [] ==> InsertOk(s', g)
    requires KeepsBlocks(s.producer, s'.producer) && (Inserting(s.producer) ==> Inserting(s'.producer))
    ensures Inv(s', g)
  {
    SamePlace(s, g, s');
    IndexStep(s, g, s', g);
  }

  /** Neither the index nor the insertion in progress changes. */
  lemma SameInsertion(s: State, g: Ghosts, s': State)
    requires ShapeOk(s, g) && (s.headers != [] ==> InsertOk(s, g))
    requires s'.headers == s.headers && s'.entries == s.entries && s'.nextCapacity == s.nextCapacity
    requires SamePhase(s.producer, s'.producer)
    ensures ShapeOk(s', g) && (s.headers != [] ==> InsertOk(s', g))
  {}

  lemma SamePlace(s: State, g: Ghosts, s': State)
    requires IndexOk(s, g) && ShapeOk(s', g) && s'.headers == s.headers && s'.entries == s.entries
    requires (s.headers != [] ==> InsertOk(s', g)) && (Inserting(s.producer) ==> Inserting(s'.producer))
    ensures IndexOk(s', g)
  {
    if s.headers != [] { SameOldKeys(s, g, s', g); }
    forall j: nat | j < |s'.headers| ensures OlderOk(s', g, j) {
      OlderFrame(s, g, s', g, j);
    }
    SameValues(s, g, s');
  }

  lemma SameValues(s: State, g: Ghosts, s': State)
    requires ShapeOk(s, g) && ValuesOk(s, g) && ShapeOk(s', g) && s'.entries == s.entries
    ensures ValuesOk(s', g)
  {
    if s.headers != [] {
      forall p | Low(g) <= p < g.k
        ensures EntryAt(s'.entries, g.ix, p).value == if p in g.nulled then Null else At(g.pos[p])
      {
        assert EntryAt(s.entries, g.ix, p).value == if p in g.nulled then Null else At(g.pos[p]);
      }
    }
  }

  /** The producer goes on, or gives up, without touching anything. */
  lemma PhaseKeeps(s: State, g: Ghosts, s': State)
    requires Inv(s, g) && s' == s.(producer := s'.producer) && SamePhase(s.producer, s'.producer)
    requires TailOk(s', g) && KeepsBlocks(s.producer, s'.producer)
    ensures Inv(s', g)
  {
    SameInsertion(s, g, s');
    PlaceStep(s, g, s');
  }

  lemma IdleKeeps(s: State, g: Ghosts, s': State)
    requires Inv(s, g) && s.producer.PIdle? && ProducerStep(s, s')
    ensures Inv(s', g)
  {
    IdleTail(s, g, s');
    PhaseKeeps(s, g, s');
  }

  lemma IdleTail(s: State, g: Ghosts, s': State)
    requires s.producer.PIdle? && ProducerStep(s, s') && TailOk(s, g)
    ensures s' == s.(producer := s'.producer) && TailOk(s', g)
    ensures s'.producer.PInsert? || (s'.producer.PWrite? && s'.producer.at == 0)
  {
    var vs :| EnqueueCall(s, vs, s');
  }

  lemma InsertKeeps(s: State, g: Ghosts, s': State)
    requires Inv(s, g) && s.producer.PInsert? && ProducerStep(s, s')
    ensures Inv(s', g)
  {
    InsertPlace(s, g, s');
    TailFrame(s, g, s', g);
    if s.headers == [] {
      PhaseKeeps(s, g, s');
    } else {
      InsertKey(s, g, s');
      PlaceStep(s, g, s');
    }
  }

  lemma InsertPlace(s: State, g: Ghosts, s': State)
    requires PlaceOk(s) && s.producer.PInsert? && ProducerStep(s, s')
    ensures s' == s.(producer := s'.producer) && PlaceOk(s')
    ensures if s.headers == [] then s'.producer == PUndo(0) else s'.producer.PKey? || s'.producer.PGrow?
  {}

  /** The test of the next entry: it can be used exactly when the position that used it a
      whole circle ago has been cleared. */
  lemma InsertKey(s: State, g: Ghosts, s': State)
    requires IndexOk(s, g) && s.headers != [] && s.producer.PInsert? && ProducerStep(s, s') && ShapeOk(s', g)
    ensures InsertOk(s', g)
  {
    NextIsK(s, g);
    KeyFree(s, g);
  }

  lemma KeyFree(s: State, g: Ghosts)
    requires IndexOk(s, g) && s.headers != [] && !Inserting(s.producer)
    ensures var e := EntryAt(s.entries, g.ix, g.k);
      if e.key == INVALID_BLOCK_BASE || e.value.Null? then
        g.k - Cap(g.ix) >= Origin(g.ix) ==> g.k - Cap(g.ix) in g.nulled
      else g.top == g.k && g.k - Cap(g.ix) >= Origin(g.ix)
  {
    assert SlotOk(s, g, g.k);
    if g.k - Cap(g.ix) >= Origin(g.ix) {
      EntryPeriod(g, Last(g.ix), g.k - Cap(g.ix));
      assert EntryAt(s.entries, g.ix, g.k - Cap(g.ix)).value
          == if g.k - Cap(g.ix) in g.nulled then Null else At(g.pos[g.k - Cap(g.ix)]);
    }
  }

  // ------------------------------------------------------------------ the next entry changes

  /** The entry of position k gets its key, or has its value cleared again. */
  ghost predicate NextEntrySet(s: State, g: Ghosts, s': State, g': Ghosts)
    requires ShapeOk(s, g) && s.headers != []
  {
    && s'.headers == s.headers && s'.nextCapacity == s.nextCapacity
    && (g.k - Cap(g.ix) >= Origin(g.ix) ==> g.k - Cap(g.ix) in g.nulled)
    && g' == g.(top := g'.top) && g'.top == (if g.top == g.k then g.k + 1 else g.top)
    && var e := EntryOf(g.ix, Last(g.ix), g.k);
    && e < |s.entries| == |s'.entries| && s'.entries == s.entries[e := s'.entries[e]]
    && s'.entries[e].key == BLOCK_SIZE * g.k
    && (s'.entries[e].value == Null || (s'.entries[e].value == s.entries[e].value && Inserting(s'.producer)))
  }

  lemma OtherEntries(s: State, g: Ghosts, s': State, g': Ghosts, x: int)
    requires ShapeOk(s, g) && s.headers != [] && NextEntrySet(s, g, s', g')
    requires g.k - Cap(g.ix) < x < g.k + Cap(g.ix) && x != g.k
    ensures EntryAt(s'.entries, g.ix, x) == EntryAt(s.entries, g.ix, x)
  {
    if x < g.k { EntriesApart(s, g, x, g.k); } else { EntriesApart(s, g, g.k, x); }
  }

  lemma NextEntryKeys(s: State, g: Ghosts, s': State, g': Ghosts)
    requires ShapeOk(s, g) && s.headers != [] && OldKeys(s, g) && NextEntrySet(s, g, s', g') && ShapeOk(s', g')
    ensures OldKeys(s', g')
  {
    forall e | 0 <= e < |s'.entries| ensures KeyOk(s', g', e) {
      assert KeyOk(s, g, e);
    }
    forall x | g'.k <= x < g'.k + Cap(g'.ix) ensures SlotOk(s', g', x) {
      assert SlotOk(s, g, x);
      if x > g.k { OtherEntries(s, g, s', g', x); }
    }
  }

  lemma NextEntryValues(s: State, g: Ghosts, s': State, g': Ghosts)
    requires ShapeOk(s, g) && s.headers != [] && ValuesOk(s, g) && NextEntrySet(s, g, s', g') && ShapeOk(s', g')
    ensures ValuesOk(s', g')
  {
    forall p | Low(g) <= p < g.k
      ensures EntryAt(s'.entries, g.ix, p).value == if p in g.nulled then Null else At(g.pos[p])
    {
      assert EntryAt(s.entries, g.ix, p).value == if p in g.nulled then Null else At(g.pos[p]);
      if p == g.k - Cap(g.ix) {
        EntryPeriod(g, Last(g.ix), p);
      } else {
        OtherEntries(s, g, s', g', p);
      }
    }
  }

  lemma NextEntryStep(s: State, g: Ghosts, s': State, g': Ghosts)
    requires Inv(s, g) && s.headers != [] && NextEntrySet(s, g, s', g')
    requires s' == s.(entries := s'.entries, producer := s'.producer)
    requires TailOk(s', g') && ShapeOk(s', g') && InsertOk(s', g') && KeepsBlocks(s.producer, s'.producer)
    ensures Inv(s', g')
  {
    NextEntryKeys(s, g, s', g');
    NextEntryValues(s, g, s', g');
    forall j: nat | j < |s'.headers| ensures OlderOk(s', g', j) {
      NextEntryOlder(s, g, s', g', j);
    }
    IndexStep(s, g, s', g');
  }

  lemma NextEntryOlder(s: State, g: Ghosts, s': State, g': Ghosts, j: nat)
    requires ShapeOk(s, g) && s.headers != [] && NextEntrySet(s, g, s', g') && ShapeOk(s', g')
    requires j < |s.headers| && OlderOk(s, g, j)
    ensures OlderOk(s', g', j)
  {}

  /** The keys in place stay within a circle of what is published. */
  lemma TopFits(s: State, g: Ghosts)
    requires ShapeOk(s, g) && s.headers != [] && InsertOk(s, g) && TailOk(s, g) && ValuesOk(s, g)
    requires s.producer.PKey? || Inserting(s.producer)
    ensures g.k < Positions(s.c.tail) + Cap(g.ix)
  {
    var k0 := Positions(s.c.tail);
    if k0 < g.k { assert k0 !in g.nulled; }
  }

  lemma KeyStored(s: State, g: Ghosts, s': State, g': Ghosts)
    requires ShapeOk(s, g) && s.headers != [] && InsertOk(s, g) && g.k == Positions(s.c.tail) + |s.batch|
    requires s.producer.PKey? && ProducerStep(s, s') && g' == g.(top := if g.top == g.k then g.k + 1 else g.top)
    ensures s' == s.(entries := s'.entries, producer := PTail(s.producer.vs))
    ensures NextEntrySet(s, g, s', g') && ShapeOk(s', g') && InsertOk(s', g')
  {
    NextIsK(s, g);
  }

  lemma KeyStoredKeeps(s: State, g: Ghosts, s': State) returns (g': Ghosts)
    requires Inv(s, g) && s.producer.PKey? && ProducerStep(s, s')
    ensures Inv(s', g')
  {
    g' := g.(top := if g.top == g.k then g.k + 1 else g.top);
    TopFits(s, g);
    KeyStored(s, g, s', g');
    TailFrame(s, g, s', g');
    NextEntryStep(s, g, s', g');
  }

  lemma Cleared(s: State, g: Ghosts, s': State)
    requires ShapeOk(s, g) && s.headers != [] && OldKeys(s, g) && InsertOk(s, g)
    requires s.producer.PClear? && ProducerStep(s, s')
    ensures s' == s.(entries := s'.entries, producer := PUndo(0))
    ensures NextEntrySet(s, g, s', g) && ShapeOk(s', g) && InsertOk(s', g)
  {
    NextIsK(s, g);
    assert SlotOk(s, g, g.k);
  }

  lemma ClearedKeeps(s: State, g: Ghosts, s': State)
    requires Inv(s, g) && s.producer.PClear? && ProducerStep(s, s')
    ensures Inv(s', g)
  {
    Cleared(s, g, s');
    TailFrame(s, g, s', g);
    NextEntryStep(s, g, s', g);
  }

  // ------------------------------------------------------------------ the index tail moves

  lemma TailStep(s: State, g: Ghosts, s': State, tail: int)
    requires Inv(s, g) && s.headers != [] && 0 <= tail < Cap(g.ix)
    requires s' == s.(headers := SetTail(s, tail), producer := s'.producer)
    requires Inserting(s'.producer) == Inserting(s.producer) && KeepsBlocks(s.producer, s'.producer) && TailOk(s', g)
    requires ShapeOk(s', g) && InsertOk(s', g)
    ensures Inv(s', g)
  {
    SameOldKeys(s, g, s', g);
    SameValues(s, g, s');
    forall j: nat | j < |s'.headers| ensures OlderOk(s', g, j) {
      OlderFrame(s, g, s', g, j);
    }
    IndexStep(s, g, s', g);
  }

  lemma Advanced(s: State, g: Ghosts, s': State)
    requires ShapeOk(s, g) && s.headers != [] && InsertOk(s, g)
    requires s.producer.PTail? && ProducerStep(s, s')
    ensures Indexed(s) && s' == s.(headers := SetTail(s, NextSlot(s)), producer := PAlloc(s.producer.vs))
    ensures ShapeOk(s', g) && InsertOk(s', g)
  {
    NextIsK(s, g);
  }

  lemma AdvancedKeeps(s: State, g: Ghosts, s': State)
    requires Inv(s, g) && s.producer.PTail? && ProducerStep(s, s')
    ensures Inv(s', g)
  {
    Advanced(s, g, s');
    TailFrame(s, g, s', g);
    TailStep(s, g, s', NextSlot(s));
  }

  /** Moving the tail back after a block that could not be had, or in an undo. */
  lemma MovedBack(s: State, g: Ghosts, s': State)
    requires ShapeOk(s, g) && s.headers != [] && InsertOk(s, g) && Rewound(s, s')
    requires Inserting(s'.producer) == Inserting(s.producer) && !s'.producer.PGrow? && !s'.producer.PKey?
    requires TailAt(s', g) == TailAt(s, g) - 1
    ensures ShapeOk(s', g) && InsertOk(s', g)
  {
    OneBack(TailAt(s, g), Origin(g.ix), Cap(g.ix));
  }

  lemma OneBack(k: int, o: int, n: nat)
    requires n > 0
    ensures Wrap(Wrap(k - o, n) - 1, n) == Wrap(k - 1 - o, n)
  {
    WrapAdd(k - o, -1, n);
  }

  lemma MovedBackKeeps(s: State, g: Ghosts, s': State)
    requires Inv(s, g) && s.headers != [] && (s.producer.PRewind? || s.producer.PBack?) && Rewound(s, s')
    requires s'.producer == if s.producer.PRewind? then PClear else PUndo(s.producer.i + 1)
    ensures Inv(s', g)
  {
    MovedBack(s, g, s');
    TailFrame(s, g, s', g);
    TailStep(s, g, s', Wrap(Newest(s).tail - 1, Newest(s).capacity));
  }

  // ------------------------------------------------------------------ the index doubles

  /** Index ix' is ix and one of twice its size: the old circle unrolled from position k,
      then entries of its own. */
  ghost predicate Doubled(ix: Indices, k: nat, ix': Indices)
  {
    && ix.index != [] && |ix.index| == |ix.origin| == |ix.hi| && Cap(ix) > 0
    && |ix'.index| == |ix.index| + 1 && ix'.index[..|ix.index|] == ix.index
    && ix'.origin == ix.origin + [k - Cap(ix)] && ix'.hi == ix.hi[Last(ix) := k] + [0]
    && Cap(ix') == 2 * Cap(ix)
    && (forall i | 0 <= i < Cap(ix) :: ix'.index[Last(ix')][i] == EntryOf(ix, Last(ix), k + i))
    && (forall i | Cap(ix) <= i < 2 * Cap(ix) :: ix'.index[Last(ix')][i] == i)
  }

  /** Old positions keep their entries, new ones get the fresh entries. */
  lemma DoubledEntry(ix: Indices, k: nat, ix': Indices, x: int)
    requires Doubled(ix, k, ix') && k - Cap(ix) <= x < k + Cap(ix)
    ensures EntryOf(ix', Last(ix'), x) == if x < k then EntryOf(ix, Last(ix), x) else x - k + Cap(ix)
  {
    if x < k {
      WrapPeriod(x - Origin(ix), Cap(ix));
    }
  }

  /** Wherever the larger index uses an old entry, the old index uses the same. */
  lemma DoubledShares(ix: Indices, k: nat, ix': Indices, x: int)
    requires Doubled(ix, k, ix') && EntryOf(ix', Last(ix'), x) < Cap(ix)
    ensures EntryOf(ix, Last(ix), x) == EntryOf(ix', Last(ix'), x)
  {
    var c, o := Cap(ix), Origin(ix);
    var w := Wrap(x - (k - c), 2 * c);
    WrapHalf(x - (k - c), w, c);
    WrapAdd(w, k - o, c);
    WrapAdd(x - (k - c), k - o, c);
    WrapPeriod(x - o, c);
    assert w + (k - o) == k + w - o && x - (k - c) + (k - o) == x - o + c;
  }

  /** The copied pointers are those of the positions from k on. */
  lemma UnrolledAt(h: Header, o: int, k: int, i: nat)
    requires i < h.capacity == |h.index| && h.tail == Wrap(k - 1 - o, h.capacity)
    ensures Unrolled(h)[i] == h.index[Wrap(k + i - o, h.capacity)]
  {
    WrapAdd(k - 1 - o, 1 + i, h.capacity);
    assert k - 1 - o + (1 + i) == k + i - o;
  }

  lemma NextPointers(h: Header, o: int, k: int, next: seq<nat>, added: seq<nat>)
    requires 0 < h.capacity == |h.index| == |added| && h.tail == Wrap(k - 1 - o, h.capacity)
    requires next == Unrolled(h) + added && forall i | 0 <= i < |added| :: added[i] == h.capacity + i
    ensures |next| == 2 * h.capacity
    ensures forall i | 0 <= i < h.capacity :: next[i] == h.index[Wrap(k + i - o, h.capacity)]
    ensures forall i | h.capacity <= i < 2 * h.capacity :: next[i] == i
  {
    forall i | 0 <= i < h.capacity ensures next[i] == h.index[Wrap(k + i - o, h.capacity)] {
      UnrolledAt(h, o, k, i);
    }
    forall i | h.capacity <= i < 2 * h.capacity ensures next[i] == i {
      assert next[i] == added[i - h.capacity];
    }
  }

  /** What `new_block_index` built. */
  lemma GrownIndex(s: State, ix: Indices, k: nat, s': State) returns (ix': Indices)
    requires IndicesOk(s.headers, s.entries, ix) && s.headers != [] && IndexGrown(s, s')
    requires s.nextCapacity == 2 * Cap(ix) && Newest(s).tail == Wrap(k - 1 - Origin(ix), Cap(ix))
    ensures Doubled(ix, k, ix') && |s'.entries| == 2 * Cap(ix)
    ensures s'.headers == s.headers + [Header(2 * Cap(ix), Cap(ix) - 1, ix'.index[Last(ix')])]
  {
    var added := GrownHeader(s, s', Cap(ix));
    var next := Unrolled(Newest(s)) + added;
    NextPointers(Newest(s), Origin(ix), k, next, added);
    ix' := Indices(ix.index + [next], ix.origin + [k - Cap(ix)], ix.hi[Last(ix) := k] + [0]);
  }

  lemma GrownHeader(s: State, s': State, c: nat) returns (added: seq<nat>)
    requires s.headers != [] && IndexGrown(s, s')
    requires Newest(s).capacity == |s.entries| == c > 0 && s.nextCapacity == 2 * c
    ensures |s'.entries| == 2 * c && |added| == c && forall i | 0 <= i < c :: added[i] == c + i
    ensures |Newest(s).index| == c
    ensures s'.headers == s.headers + [Header(2 * c, c - 1, Unrolled(Newest(s)) + added)]
  {
    var n := |s.entries|;
    added := seq(|s'.entries| - n, i => n + i);
  }

  ghost predicate Growth(s: State, g: Ghosts, s': State, g': Ghosts)
  {
    && ShapeOk(s, g) && s.headers != [] && Doubled(g.ix, g.k, g'.ix) && g' == g.(ix := g'.ix)
    && Origin(g.ix) <= g.k - Cap(g.ix) && g.top == g.k
    && |s'.entries| == 2 * Cap(g.ix) && s'.entries[..|s.entries|] == s.entries
    && (forall e | |s.entries| <= e < |s'.entries| :: s'.entries[e].key == INVALID_BLOCK_BASE)
    && s'.headers == s.headers + [Header(2 * Cap(g.ix), Cap(g.ix) - 1, g'.ix.index[Last(g'.ix)])]
    && s'.nextCapacity == 2 * s.nextCapacity
  }

  lemma GrowthShape(s: State, g: Ghosts, s': State, g': Ghosts)
    requires Growth(s, g, s', g')
    ensures ShapeOk(s', g')
  {
    var c, next := Cap(g.ix), g'.ix.index[Last(g'.ix)];
    forall i, i' | 0 <= i < i' < 2 * c ensures next[i] != next[i'] {
      if i' < c { EntriesApart(s, g, g.k + i, g.k + i'); }
    }
    forall i | 0 <= i < 2 * c ensures next[i] < 2 * c {}
  }

  lemma GrowthKey(s: State, g: Ghosts, s': State, g': Ghosts, e: nat)
    requires Growth(s, g, s', g') && ShapeOk(s', g') && e < |s.entries| && KeyOk(s, g, e)
    ensures KeyOk(s', g', e)
  {
    assert s'.entries[e] == s'.entries[..|s.entries|][e];
    if s.entries[e].key != INVALID_BLOCK_BASE { DoubledEntry(g.ix, g.k, g'.ix, s.entries[e].key / BLOCK_SIZE); }
  }

  lemma GrowthKeys(s: State, g: Ghosts, s': State, g': Ghosts)
    requires Growth(s, g, s', g') && OldKeys(s, g) && ShapeOk(s', g')
    ensures OldKeys(s', g')
  {
    forall e | 0 <= e < |s'.entries| ensures KeyOk(s', g', e) {
      if e < |s.entries| { GrowthKey(s, g, s', g', e); }
    }
    forall x | g'.k <= x < g'.k + Cap(g'.ix) ensures SlotOk(s', g', x) {
      GrowthSlot(s, g, s', g', x);
    }
  }

  /** The first half of the larger circle is fresh, the second is the old circle. */
  lemma GrowthSlot(s: State, g: Ghosts, s': State, g': Ghosts, x: int)
    requires Growth(s, g, s', g') && OldKeys(s, g) && ShapeOk(s', g') && g.k <= x < g.k + 2 * Cap(g.ix)
    ensures SlotOk(s', g', x)
  {
    var c := Cap(g.ix);
    if x < g.k + c {
      DoubledEntry(g.ix, g.k, g'.ix, x);
    } else {
      var y := x - 2 * c;
      EntryPeriod(g', Last(g'.ix), y);
      DoubledEntry(g.ix, g.k, g'.ix, y);
      EntryPeriod(g, Last(g.ix), y);
      assert SlotOk(s, g, y + c);
      var e := EntryOf(g.ix, Last(g.ix), y);
      assert s'.entries[e] == s'.entries[..|s.entries|][e];
    }
  }

  lemma GrowthNext(s: State, g: Ghosts, s': State, g': Ghosts)
    requires Growth(s, g, s', g') && ShapeOk(s', g') && s'.producer.PKey?
    ensures InsertOk(s', g')
  {}

  lemma GrowthValues(s: State, g: Ghosts, s': State, g': Ghosts)
    requires Growth(s, g, s', g') && ValuesOk(s, g) && ShapeOk(s', g')
    ensures ValuesOk(s', g')
  {
    forall p | Low(g') <= p < g'.k
      ensures EntryAt(s'.entries, g'.ix, p).value == if p in g'.nulled then Null else At(g'.pos[p])
    {
      DoubledEntry(g.ix, g.k, g'.ix, p);
      assert EntryAt(s.entries, g.ix, p).value == if p in g.nulled then Null else At(g.pos[p]);
    }
  }

  lemma GrowthLink(s: State, g: Ghosts, s': State, g': Ghosts, j: nat)
    requires Growth(s, g, s', g') && ShapeOk(s', g') && j < |s.headers| && LinkOk(g.ix, j)
    ensures LinkOk(g'.ix, j)
  {
    forall x: int | EntryOf(g'.ix, Last(g'.ix), x) < |g'.ix.index[j]|
      ensures EntryOf(g'.ix, j, x) == EntryOf(g'.ix, Last(g'.ix), x)
    {
      DoubledShares(g.ix, g.k, g'.ix, x);
      assert EntryOf(g.ix, Last(g.ix), x) < |g.ix.index[j]| ==> EntryOf(g.ix, j, x) == EntryOf(g.ix, Last(g.ix), x);
    }
  }

  lemma GrowthReach(s: State, g: Ghosts, s': State, g': Ghosts, j: nat, p: int)
    requires Growth(s, g, s', g') && ShapeOk(s', g') && j < |s.headers| && OlderOk(s, g, j)
    requires Low(g') <= p < Hi(g', j)
    requires p >= 0 && p !in g.nulled
    ensures EntryOf(g'.ix, Last(g'.ix), p) < |g'.ix.index[j]|
  {
    DoubledEntry(g.ix, g.k, g'.ix, p);
  }

  lemma GrowthOlder(s: State, g: Ghosts, s': State, g': Ghosts, j: nat)
    requires Growth(s, g, s', g') && OldKeys(s, g) && ShapeOk(s', g') && j < |s.headers| && OlderOk(s, g, j)
    requires s.headers[Last(g.ix)].tail == Wrap(g.k - 1 - Origin(g.ix), Cap(g.ix))
    ensures OlderOk(s', g', j)
  {
    GrowthLink(s, g, s', g', j);
    forall p: nat | Low(g') <= p < Hi(g', j) && p !in g'.nulled
      ensures EntryOf(g'.ix, Last(g'.ix), p) < |g'.ix.index[j]|
    {
      GrowthReach(s, g, s', g', j, p);
    }
    var e := g.ix.index[j][s.headers[j].tail];
    assert e < |s.entries| && s'.entries[..|s.entries|][e] == s'.entries[e];
    if j == Last(g.ix) {
      KeyBehind(s, g, g.k - 1);
    }
  }

  lemma GrowthNewest(s: State, g: Ghosts, s': State, g': Ghosts)
    requires Growth(s, g, s', g') && ShapeOk(s', g')
    ensures OlderOk(s', g', |s.headers|)
  {}

  lemma GrowthExtends(s: State, g: Ghosts, s': State, g': Ghosts)
    requires Growth(s, g, s', g') && s'.readers == s.readers
    requires Hi(g, Last(g.ix)) == g.k
    ensures Extends(s, g, s', g')
  {
    forall j | 0 <= j < |g.ix.index|
      ensures g'.ix.index[j] == g.ix.index[j] && g'.ix.origin[j] == g.ix.origin[j] && Hi(g', j) >= Hi(g, j)
    {
      assert g'.ix.index[..|g.ix.index|][j] == g.ix.index[j];
    }
  }

  lemma GrowthIndexOk(s: State, g: Ghosts, s': State, g': Ghosts)
    requires IndexOk(s, g) && s.producer.PGrow? && s'.producer.PKey? && Growth(s, g, s', g')
    ensures IndexOk(s', g')
  {
    GrowthShape(s, g, s', g');
    GrowthKeys(s, g, s', g');
    GrowthNext(s, g, s', g');
    GrowthValues(s, g, s', g');
    GrowthLinks(s, g, s', g');
  }

  lemma GrowthLinks(s: State, g: Ghosts, s': State, g': Ghosts)
    requires Growth(s, g, s', g') && OldKeys(s, g) && ShapeOk(s', g')
    requires s.headers[Last(g.ix)].tail == Wrap(g.k - 1 - Origin(g.ix), Cap(g.ix))
    requires forall j: nat | j < |s.headers| :: OlderOk(s, g, j)
    ensures forall j: nat | j < |s'.headers| :: OlderOk(s', g', j)
  {
    GrowthNewest(s, g, s', g');
    forall j: nat | j < |s'.headers| ensures OlderOk(s', g', j) {
      if j < |s.headers| { GrowthOlder(s, g, s', g', j); }
    }
  }

  lemma GrowKeeps(s: State, g: Ghosts, s': State) returns (g': Ghosts)
    requires Inv(s, g) && s.producer.PGrow? && IndexGrown(s, s') && s'.producer == PKey(s.producer.vs)
    ensures Inv(s', g')
  {
    g' := GrowthIs(s, g, s');
    GrowthIndexOk(s, g, s', g');
    GrowthExtends(s, g, s', g');
    GrowthTail(s, g, s', g');
    IndexStep(s, g, s', g');
  }

  lemma GrowthTail(s: State, g: Ghosts, s': State, g': Ghosts)
    requires TailOk(s, g) && Growth(s, g, s', g') && s.producer.PGrow? && s'.producer == PKey(s.producer.vs)
    requires s'.c == s.c && s'.batch == s.batch && s'.tailBlock == s.tailBlock
    ensures TailOk(s', g')
  {}

  lemma GrowthIs(s: State, g: Ghosts, s': State) returns (g': Ghosts)
    requires IndexOk(s, g) && TailOk(s, g) && s.producer.PGrow? && IndexGrown(s, s')
    ensures Growth(s, g, s', g')
  {
    var ix' := GrownIndex(s, g.ix, g.k, s');
    g' := g.(ix := ix');
  }

  // ------------------------------------------------------------------ taking a block

  lemma TakeKeeps(s: State, g: Ghosts, s': State, b: Block)
    requires Inv(s, g) && s.producer.PAlloc? && Taken(s, b, s') && s'.producer == PValue(s.producer.vs, b)
    requires TailOk(s', g)
    ensures Inv(s', g)
  {
    SameInsertion(s, g, s');
    SamePlace(s, g, s');
    TakenBlocks(s, g, s', b);
    FinishedStep(s, g, s', g);
    ReadersStep(s, g, s', g);
  }

  lemma TakenBlocks(s: State, g: Ghosts, s': State, b: Block)
    requires |g.pos| == g.k && BlocksOk(s, g) && Taken(s, b, s') && s'.producer.PValue? && s'.producer.b == b
    ensures BlocksOk(s', g)
  {
    forall q: nat | q < g.k && s'.freed[q] == 0 ensures UsedBlock(s', g, q) {
      assert UsedBlock(s, g, q);
    }
    forall p | 0 <= p < g.k && s'.freed[p] == 0 ensures g.pos[p] != b {
      assert UsedBlock(s, g, p);
    }
  }

  // ------------------------------------------------------------------ the position is inserted

  lemma StoreKeeps(s: State, g: Ghosts, s': State) returns (g': Ghosts)
    requires Inv(s, g) && s.producer.PValue? && ProducerStep(s, s')
    ensures Inv(s', g')
  {
    g' := g.(k := g.k + 1, pos := g.pos + [s.producer.b]);
    HeadBelow(s);
    StoredIs(s, g, s', g');
    StoredIndex(s, g, s', g');
    StoredTail(s, g, s', g');
    StoredBlocks(s, g, s', g');
    FinishedStep(s, g, s', g');
    ReadersStep(s, g, s', g');
  }

  lemma StoredIs(s: State, g: Ghosts, s': State, g': Ghosts)
    requires IndexOk(s, g) && s.headers != [] && s.producer.PValue? && ProducerStep(s, s')
    requires g' == g.(k := g.k + 1, pos := g.pos + [s.producer.b])
    ensures Stored(s, g, s', g') && Extends(s, g, s', g')
  {}

  lemma StoredTail(s: State, g: Ghosts, s': State, g': Ghosts)
    requires IndexOk(s, g) && TailOk(s, g) && s.producer.PValue? && ProducerStep(s, s') && g.k !in g.nulled
    requires g' == g.(k := g.k + 1, pos := g.pos + [s.producer.b])
    ensures TailOk(s', g')
  {
    TopFits(s, g);
    assert g'.pos[Positions(s.c.tail)..] == g.pos[Positions(s.c.tail)..] + [s.producer.b];
  }

  lemma StoredIndex(s: State, g: Ghosts, s': State, g': Ghosts)
    requires IndexOk(s, g) && Stored(s, g, s', g') && g.k !in g.nulled
    ensures IndexOk(s', g')
  {
    StoredKeys(s, g, s', g');
    StoredValues(s, g, s', g');
    forall j: nat | j < |s'.headers| ensures OlderOk(s', g', j) {
      StoredOlder(s, g, s', g', j);
    }
  }

  /** The block of position k is in its entry, and k is inserted. */
  ghost predicate Stored(s: State, g: Ghosts, s': State, g': Ghosts)
  {
    && ShapeOk(s, g) && s.headers != [] && s.producer.PValue?
    && g' == g.(k := g.k + 1, pos := g.pos + [s.producer.b])
    && s'.headers == s.headers && s'.nextCapacity == s.nextCapacity && (s'.producer.PWrite? || s'.producer.PInsert?)
    && var e := EntryOf(g.ix, Last(g.ix), g.k);
    && e < |s.entries| && s'.entries == s.entries[e := s.entries[e].(value := At(s.producer.b))]
  }

  lemma StoredKeys(s: State, g: Ghosts, s': State, g': Ghosts)
    requires Stored(s, g, s', g') && OldKeys(s, g) && InsertOk(s, g)
    ensures ShapeOk(s', g') && OldKeys(s', g') && InsertOk(s', g')
  {
    assert SlotOk(s, g, g.k);
    EntryPeriod(g, Last(g.ix), g.k - Cap(g.ix));
    forall e | 0 <= e < |s'.entries| ensures KeyOk(s', g', e) {
      assert KeyOk(s, g, e);
    }
    forall x | g'.k <= x < g'.k + Cap(g'.ix) ensures SlotOk(s', g', x) {
      StoredSlot(s, g, s', g', x);
    }
  }

  lemma StoredSlot(s: State, g: Ghosts, s': State, g': Ghosts, x: int)
    requires Stored(s, g, s', g') && OldKeys(s, g) && InsertOk(s, g) && ShapeOk(s', g')
    requires g.k < x <= g.k + Cap(g.ix)
    ensures SlotOk(s', g', x)
  {
    if x < g.k + Cap(g.ix) {
      assert SlotOk(s, g, x);
      EntriesApart(s, g, g.k, x);
    } else {
      assert SlotOk(s, g, g.k);
      EntryPeriod(g, Last(g.ix), g.k);
    }
  }

  lemma StoredValues(s: State, g: Ghosts, s': State, g': Ghosts)
    requires Stored(s, g, s', g') && ValuesOk(s, g) && InsertOk(s, g) && ShapeOk(s', g') && g.k !in g.nulled
    ensures ValuesOk(s', g')
  {
    forall p | Low(g') <= p < g'.k
      ensures EntryAt(s'.entries, g'.ix, p).value == if p in g'.nulled then Null else At(g'.pos[p])
    {
      if p < g.k { StoredValue(s, g, s', g', p); }
    }
  }

  /** An older position keeps its value. */
  lemma StoredValue(s: State, g: Ghosts, s': State, g': Ghosts, p: int)
    requires Stored(s, g, s', g') && ValuesOk(s, g) && ShapeOk(s', g') && Low(g') <= p < g.k
    ensures EntryAt(s'.entries, g'.ix, p).value == if p in g'.nulled then Null else At(g'.pos[p])
  {
    EntriesApart(s, g, p, g.k);
    assert EntryAt(s.entries, g.ix, p).value == if p in g.nulled then Null else At(g.pos[p]);
  }

  lemma StoredOlder(s: State, g: Ghosts, s': State, g': Ghosts, j: nat)
    requires Stored(s, g, s', g') && ShapeOk(s', g') && j < |s.headers| && OlderOk(s, g, j)
    ensures OlderOk(s', g', j)
  {}

  lemma {:induction false} FinCountNone(fin: set<nat>, a: nat, n: nat)
    requires forall i: nat | a <= i < a + n :: i !in fin
    ensures FinCount(fin, a, n) == 0
  {
    if n > 0 { FinCountNone(fin, a, n - 1); }
  }

  lemma StoredBlocks(s: State, g: Ghosts, s': State, g': Ghosts)
    requires |g.pos| == g.k && BlocksOk(s, g) && FinishedOk(s, g) && s.producer.PValue?
    requires s'.producer.PInsert? || (s'.producer.PWrite? && s'.producer.at == 0)
    requires s.c.head <= s.c.tail <= BLOCK_SIZE * g.k && g' == g.(k := g.k + 1, pos := g.pos + [s.producer.b])
    requires s' == s.(entries := s'.entries, batch := s'.batch, producer := s'.producer)
    ensures BlocksOk(s', g')
  {
    FinCountNone(s.finished, BLOCK_SIZE * g.k, BLOCK_SIZE);
    forall q: nat | q < g'.k && s'.freed[q] == 0 ensures UsedBlock(s', g', q) {
      if q < g.k { assert UsedBlock(s, g, q); }
    }
  }

  // ------------------------------------------------------------------ writing and publishing

  lemma HeadBelow(s: State)
    requires C.Safe(s.c)
    ensures s.c.head <= s.c.tail
  {
    C.PromisedNat(s.c.threads);
  }

  /** The position of an index that is not published is not given back. */
  lemma UnpublishedIsLive(s: State, g: Ghosts, i: nat)
    requires FinishedOk(s, g) && s.c.head <= s.c.tail <= i
    ensures s.freed[i / BLOCK_SIZE] == 0
  {
    assert ReleaseOk(s, i / BLOCK_SIZE);
    TotalNat(s.readers, Releasing(i / BLOCK_SIZE));
    assert BLOCK_SIZE * (i / BLOCK_SIZE) <= i < BLOCK_SIZE * (i / BLOCK_SIZE) + BLOCK_SIZE && i !in s.finished;
  }

  lemma SameReaders(s: State, g: Ghosts, s': State)
    requires ShapeOk(s, g) && ReadersOk(s, g) && s'.entries == s.entries && s'.readers == s.readers
    requires s'.c.threads == s.c.threads && s'.c.head == s.c.head
    requires s'.finished == s.finished && s'.read == s.read && s.enqueued <= s'.enqueued
    ensures ReadersOk(s', g)
  {
    ReadersStep(s, g, s', g);
  }

  lemma SameIndexKeeps(s: State, g: Ghosts, s': State)
    requires IndexOk(s, g) && s'.headers == s.headers && s'.entries == s.entries && s'.nextCapacity == s.nextCapacity
    requires SamePhase(s.producer, s'.producer)
    ensures IndexOk(s', g)
  {
    SameInsertion(s, g, s');
    SamePlace(s, g, s');
  }

  lemma WriteKeeps(s: State, g: Ghosts, s': State)
    requires Inv(s, g) && s.producer.PWrite? && ElementWritten(s, s.producer.vs, s.producer.at, s')
    ensures Inv(s', g)
  {
    HeadBelow(s);
    SameIndexKeeps(s, g, s');
    WrittenBlocks(s, g, s');
    FinishedStep(s, g, s', g);
    SameReaders(s, g, s');
  }

  /** Where element a of those being enqueued goes. */
  lemma TargetIs(s: State, g: Ghosts, a: nat)
    requires TailOk(s, g) && s.producer.PWrite? && a < |s.producer.vs|
    ensures var i := s.c.tail + a;
      i / BLOCK_SIZE < Positions(s.c.tail) + |s.batch| == |g.pos| && Target(s, i) == At(g.pos[i / BLOCK_SIZE])
  {
    var i, k0 := s.c.tail + a, Positions(s.c.tail);
    PositionBelow(i, s.c.tail + |s.producer.vs|);
    if i / BLOCK_SIZE < k0 {
      TailPartial(i, s.c.tail);
    } else {
      assert g.pos[k0..][i / BLOCK_SIZE - k0] == g.pos[i / BLOCK_SIZE];
    }
  }

  lemma TailPartial(i: nat, tail: nat)
    requires tail <= i && i / BLOCK_SIZE < Positions(tail)
    ensures tail % BLOCK_SIZE != 0 && i / BLOCK_SIZE == Positions(tail) - 1
  {}

  lemma WrittenBlocks(s: State, g: Ghosts, s': State)
    requires |g.pos| == g.k && TailOk(s, g) && BlocksOk(s, g) && FinishedOk(s, g) && s.c.head <= s.c.tail
    requires s.producer.PWrite? && ElementWritten(s, s.producer.vs, s.producer.at, s')
    ensures BlocksOk(s', g)
  {
    WrittenIs(s, g, s');
    WrittenAre(s, g, s', s.c.tail + s.producer.at, s.producer.vs, s.producer.at);
  }

  lemma WrittenIs(s: State, g: Ghosts, s': State)
    requires |g.pos| == g.k && TailOk(s, g) && FinishedOk(s, g) && s.c.head <= s.c.tail
    requires s.producer.PWrite? && ElementWritten(s, s.producer.vs, s.producer.at, s')
    ensures Written(s, g, s', s.c.tail + s.producer.at, s.producer.vs, s.producer.at)
  {
    TargetIs(s, g, s.producer.at);
    UnpublishedIsLive(s, g, s.c.tail + s.producer.at);
  }

  /** Element `at` of vs, at index i, is written to the block of its position. */
  ghost predicate Written(s: State, g: Ghosts, s': State, i: nat, vs: seq<Value>, at: nat)
  {
    && |g.pos| == g.k && s.producer == PWrite(vs, at) && at < |vs| && i == s.c.tail + at
    && i / BLOCK_SIZE < g.k && s.freed[i / BLOCK_SIZE] == 0
    && var b := g.pos[i / BLOCK_SIZE];
    && b in s.elems && |s.elems[b]| == BLOCK_SIZE
    && s' == s.(elems := s.elems[b := s.elems[b][i % BLOCK_SIZE := vs[at]]], producer := PWrite(vs, at + 1))
  }

  lemma WrittenAre(s: State, g: Ghosts, s': State, i: nat, vs: seq<Value>, at: nat)
    requires Written(s, g, s', i, vs, at) && BlocksOk(s, g) && FinishedOk(s, g) && s.c.head <= s.c.tail
    ensures BlocksOk(s', g)
  {
    forall q: nat | q < g.k && s'.freed[q] == 0 ensures UsedBlock(s', g, q) {
      WrittenUsed(s, g, s', i, vs, at, q);
    }
    forall a: nat | a < at + 1 ensures WrittenOk(s', g, vs, a) {
      if a < at { WrittenElse(s, g, s', i, vs, at, a); }
    }
  }

  lemma WrittenUsed(s: State, g: Ghosts, s': State, i: nat, vs: seq<Value>, at: nat, q: nat)
    requires Written(s, g, s', i, vs, at) && BlocksOk(s, g) && q < g.k && s.freed[q] == 0
    ensures UsedBlock(s', g, q)
  {
    assert UsedBlock(s, g, q) && UsedBlock(s, g, i / BLOCK_SIZE);
    if q == i / BLOCK_SIZE {
      assert i == BLOCK_SIZE * q + i % BLOCK_SIZE;
    }
  }

  lemma WrittenElse(s: State, g: Ghosts, s': State, i: nat, vs: seq<Value>, at: nat, a: nat)
    requires Written(s, g, s', i, vs, at) && BlocksOk(s, g) && FinishedOk(s, g) && s.c.head <= s.c.tail && a < at
    ensures WrittenOk(s', g, vs, a)
  {
    assert WrittenOk(s, g, vs, a);
    UnpublishedIsLive(s, g, s.c.tail + a);
    OtherPlace(i, s.c.tail + a);
  }

  lemma OtherPlace(i: nat, j: nat)
    requires i != j
    ensures i / BLOCK_SIZE != j / BLOCK_SIZE || i % BLOCK_SIZE != j % BLOCK_SIZE
  {}

  lemma PublishKeeps(s: State, g: Ghosts, s': State)
    requires Inv(s, g) && s.producer.PWrite? && s.producer.at == |s.producer.vs| && ProducerStep(s, s')
    requires C.Safe(s'.c)
    ensures Inv(s', g)
  {
    SameIndexKeeps(s, g, s');
    PublishedTail(s, g, s');
    PublishedBlocks(s, g, s');
    PublishedFinished(s, g, s');
    SameReaders(s, g, s');
    assert C.NoneEmpty(s'.c);
  }

  lemma PublishedTail(s: State, g: Ghosts, s': State)
    requires TailOk(s, g) && s.producer.PWrite? && s.producer.at == |s.producer.vs| && ProducerStep(s, s')
    ensures TailOk(s', g) && Positions(s'.c.tail) == g.k && s'.c.tail == s.c.tail + |s.producer.vs|
  {
    var k0 := Positions(s.c.tail);
    assert g.pos[g.k..] == [];
    if s.batch != [] { assert g.pos[k0..][|s.batch| - 1] == g.pos[g.k - 1]; }
  }

  lemma PublishedBlocks(s: State, g: Ghosts, s': State)
    requires |g.pos| == g.k && BlocksOk(s, g)
    requires s.producer.PWrite? && s.producer.at == |s.producer.vs| && ProducerStep(s, s')
    ensures BlocksOk(s', g)
  {
    forall q: nat | q < g.k && s'.freed[q] == 0 ensures UsedBlock(s', g, q) {
      PublishedUsed(s, g, s', q);
    }
  }

  lemma PublishedUsed(s: State, g: Ghosts, s': State, q: nat)
    requires |g.pos| == g.k && BlocksOk(s, g) && q < g.k && s.freed[q] == 0
    requires s.producer.PWrite? && s.producer.at == |s.producer.vs| && ProducerStep(s, s')
    ensures UsedBlock(s', g, q)
  {
    assert UsedBlock(s, g, q);
    forall j | 0 <= j < BLOCK_SIZE && BLOCK_SIZE * q + j < s'.c.tail
      ensures s'.elems[g.pos[q]][j] == s'.enqueued[BLOCK_SIZE * q + j]
    {
      if BLOCK_SIZE * q + j >= s.c.tail {
        assert WrittenOk(s, g, s.producer.vs, BLOCK_SIZE * q + j - s.c.tail);
      }
    }
  }

  lemma PublishedFinished(s: State, g: Ghosts, s': State)
    requires TailOk(s, g) && FinishedOk(s, g)
    requires s.producer.PWrite? && s.producer.at == |s.producer.vs| && ProducerStep(s, s')
    ensures FinishedOk(s', g)
  {
    forall p: nat ensures ReleaseOk(s', p) {
      assert ReleaseOk(s, p);
    }
  }

  // ------------------------------------------------------------------ undoing

  /** The lookup of the undo, from wherever it has moved the index tail to, finds the entry
      of the block it undoes, with the key and the block that were stored there. */
  lemma UndoFinds(s: State, g: Ghosts)
    requires IndexOk(s, g) && TailOk(s, g) && s.producer.PUndo? && s.producer.i < |s.batch|
    ensures Indexed(s) && 0 <= Newest(s).tail < Newest(s).capacity
    ensures var p := Positions(s.c.tail) + s.producer.i;
      && p < g.k && p !in g.nulled
      && Newest(s).index[UndoSlot(s, s.producer.i)] == EntryOf(g.ix, Last(g.ix), p) < |s.entries|
      && EntryAt(s.entries, g.ix, p) == Entry(BLOCK_SIZE * p, At(s.batch[s.producer.i]))
  {
    UndoPlace(s, g);
    UndoSlotIs(s, g, s.producer.i);
    SharedEntry(s, g, Last(g.ix), Positions(s.c.tail) + s.producer.i);
  }

  lemma UndoSlotIs(s: State, g: Ghosts, i: nat)
    requires IndexOk(s, g) && s.headers != [] && Low(g) <= TailAt(s, g) < g.k
    ensures Indexed(s) && 0 <= Newest(s).tail < Newest(s).capacity
    ensures UndoSlot(s, i) == Wrap(Positions(s.c.tail) + i - Origin(g.ix), Cap(g.ix))
  {
    TailLeads(s, g, TailAt(s, g), BLOCK_SIZE * (Positions(s.c.tail) + i));
  }

  lemma UndoPlace(s: State, g: Ghosts)
    requires ShapeOk(s, g) && TailOk(s, g) && s.producer.PUndo? && s.producer.i < |s.batch|
    ensures s.headers != [] && Low(g) <= TailAt(s, g) < g.k
    ensures var p := Positions(s.c.tail) + s.producer.i;
      p < g.k && p !in g.nulled && g.pos[p] == s.batch[s.producer.i]
  {
    var k0 := Positions(s.c.tail);
    assert g.pos[k0..][s.producer.i] == g.pos[k0 + s.producer.i];
  }

  /** The lookup from the index tail, whichever inserted position that is. */
  lemma TailLeads(s: State, g: Ghosts, x: int, i: nat)
    requires IndexOk(s, g) && s.headers != [] && Low(g) <= x < g.k && TailAt(s, g) == x
    ensures Indexed(s) && 0 <= Newest(s).tail < Newest(s).capacity == |g.ix.index[Last(g.ix)]|
    ensures var key := s.entries[Newest(s).index[Newest(s).tail]].key;
      && key != INVALID_BLOCK_BASE
      && LookupSlot(Newest(s).tail, key, i, Newest(s).capacity) == Wrap(i / BLOCK_SIZE - Origin(g.ix), Cap(g.ix))
  {
    var h, q := Last(g.ix), Newest(s).tail;
    assert g.ix.index[h][q] == EntryOf(g.ix, h, x);
    KeyBehind(s, g, x);
    SlotOfKey(s, g, h, q);
    LookupLeads(q, s.entries[g.ix.index[h][q]].key, i, g.ix.origin[h], |g.ix.index[h]|);
  }

  lemma UndoKeeps(s: State, g: Ghosts, s': State) returns (g': Ghosts)
    requires Inv(s, g) && s.producer.PUndo? && s.producer.i < |s.batch| && ProducerStep(s, s')
    ensures Inv(s', g')
  {
    var p := Positions(s.c.tail) + s.producer.i;
    g' := g.(nulled := g.nulled + {p});
    UndoIs(s, g, p, s', g');
    UndoneKeeps(s, g, p, s', g');
  }

  /** The entry of position p is cleared. */
  ghost predicate Undone(s: State, g: Ghosts, p: nat, s': State, g': Ghosts)
  {
    && ShapeOk(s, g) && s.headers != [] && Positions(s.c.tail) <= p < g.k && g' == g.(nulled := g.nulled + {p})
    && p !in g.nulled && s.producer.PUndo? && s.producer.i < |s.batch| && s'.producer == PBack(s.producer.i)
    && p == Positions(s.c.tail) + s.producer.i && EntryOf(g.ix, Last(g.ix), p) < |s.entries|
    && var e := EntryOf(g.ix, Last(g.ix), p);
    && s' == s.(entries := s.entries[e := s.entries[e].(value := Null)], producer := s'.producer)
  }

  lemma UndoIs(s: State, g: Ghosts, p: nat, s': State, g': Ghosts)
    requires IndexOk(s, g) && TailOk(s, g)
    requires s.producer.PUndo? && s.producer.i < |s.batch| && ProducerStep(s, s')
    requires p == Positions(s.c.tail) + s.producer.i && g' == g.(nulled := g.nulled + {p})
    ensures Undone(s, g, p, s', g')
  {
    UndoFinds(s, g);
  }

  lemma UndoneKeeps(s: State, g: Ghosts, p: nat, s': State, g': Ghosts)
    requires Inv(s, g) && Undone(s, g, p, s', g')
    ensures Inv(s', g')
  {
    ClearKeeps(s, g, p, s', g');
    UndoTail(s, g, s', g');
    UndoRest(s, g, p, s', g');
  }

  lemma UndoRest(s: State, g: Ghosts, p: nat, s': State, g': Ghosts)
    requires |g.pos| == g.k && BlocksOk(s, g) && FinishedOk(s, g) && ReadersOk(s, g) && Undone(s, g, p, s', g')
    requires C.Safe(s.c)
    ensures BlocksOk(s', g') && FinishedOk(s', g') && ReadersOk(s', g')
  {
    BlocksStep(s, g, s', g');
    UndoFinished(s, g, p, s', g');
    UndoReaders(s, g, p, s', g');
  }

  lemma UndoTail(s: State, g: Ghosts, s': State, g': Ghosts)
    requires TailOk(s, g) && s.headers != [] && s.producer.PUndo? && s.producer.i < |s.batch|
    requires s' == s.(entries := s'.entries, producer := PBack(s.producer.i))
    requires g' == g.(nulled := g.nulled + {Positions(s.c.tail) + s.producer.i})
    ensures TailOk(s', g')
  {}

  lemma UndoFinished(s: State, g: Ghosts, p: nat, s': State, g': Ghosts)
    requires FinishedOk(s, g) && Positions(s.c.tail) <= p < g.k && g' == g.(nulled := g.nulled + {p})
    requires s'.finished == s.finished && s'.freed == s.freed && s'.c == s.c && s'.readers == s.readers
    ensures FinishedOk(s', g')
  {
    forall q: nat ensures ReleaseOk(s', q) {
      assert ReleaseOk(s, q);
    }
  }

  lemma UndoReaders(s: State, g: Ghosts, p: nat, s': State, g': Ghosts)
    requires C.Safe(s.c) && ReadersOk(s, g) && Positions(s.c.tail) <= p && g' == g.(nulled := g.nulled + {p})
    requires Extends(s, g, s', g') && s'.readers == s.readers && s'.c == s.c
    requires s'.finished == s.finished && s'.read == s.read && s'.enqueued == s.enqueued
    ensures ReadersOk(s', g')
  {
    forall u: nat | u < |s'.readers| ensures ReaderOk(s', g', u) {
      assert ReaderOk(s, g, u);
      if s.readers[u].RNull? { ReleasedBelow(s, g, u); }
      ReaderExtends(s, g, s', g', u);
    }
  }

  lemma ReleasedBelow(s: State, g: Ghosts, u: nat)
    requires C.Safe(s.c) && u < |s.readers| == |s.c.threads| && ReaderOk(s, g, u) && s.readers[u].RNull?
    ensures s.readers[u].from / BLOCK_SIZE < Positions(s.c.tail)
  {
    C.ClaimBelowTail(s.c, u);
    PositionBelow(s.readers[u].from, s.c.tail);
  }

  /** The ghosts once everything inserted for the failed enqueue is forgotten. */
  function Forget(g: Ghosts, k0: nat): Ghosts
    requires k0 <= g.k == |g.pos|
  {
    Ghosts(k0, g.top, g.pos[..k0], (set p | p in g.nulled && p < k0),
           g.ix.(hi := seq(|g.ix.hi|, j requires 0 <= j < |g.ix.hi| => if g.ix.hi[j] < k0 then g.ix.hi[j] else k0)))
  }

  /** What is left once a failed enqueue has been undone completely. */
  ghost predicate Forgotten(s: State, g: Ghosts, s': State, g': Ghosts)
  {
    && ShapeOk(s, g) && s.producer == PUndo(|s.batch|) && s' == s.(producer := PGive)
    && var k0 := Positions(s.c.tail);
    && g'.k == k0 <= g.k && s.batch == g.pos[k0..] && g'.pos == g.pos[..k0] && g'.top == g.top
    && (k0 < g.k ==> s.headers != [] && Low(g) <= k0)
    && (s.headers != [] ==> g.top <= k0 + Cap(g.ix))
    && (forall p: nat | k0 <= p < g.k :: p in g.nulled)
    && (forall p :: p in g'.nulled <==> p in g.nulled && p < k0)
    && g'.ix.index == g.ix.index && g'.ix.origin == g.ix.origin && |g'.ix.hi| == |g.ix.hi|
    && (forall j | 0 <= j < |g.ix.hi| :: g'.ix.hi[j] == if g.ix.hi[j] < k0 then g.ix.hi[j] else k0)
  }

  lemma ForgetKeeps(s: State, g: Ghosts, s': State) returns (g': Ghosts)
    requires Inv(s, g) && s.producer.PUndo? && s.producer.i == |s.batch| && ProducerStep(s, s')
    ensures Inv(s', g')
  {
    g' := Forget(g, Positions(s.c.tail));
    ForgetIs(s, g, s', g');
    ForgottenKeeps(s, g, s', g');
  }

  lemma ForgetIs(s: State, g: Ghosts, s': State, g': Ghosts)
    requires ShapeOk(s, g) && TailOk(s, g) && s.producer.PUndo? && s.producer.i == |s.batch| && ProducerStep(s, s')
    requires g' == Forget(g, Positions(s.c.tail))
    ensures Forgotten(s, g, s', g')
  {}

  lemma ForgottenKeeps(s: State, g: Ghosts, s': State, g': Ghosts)
    requires Inv(s, g) && Forgotten(s, g, s', g')
    ensures Inv(s', g')
  {
    HeadBelow(s);
    ForgetShape(s, g, s', g');
    ForgetIndex(s, g, s', g');
    ForgetBlocks(s, g, s', g');
    ForgetFinished(s, g, s', g');
    ForgetReaders(s, g, s', g');
  }

  lemma ForgetShape(s: State, g: Ghosts, s': State, g': Ghosts)
    requires Forgotten(s, g, s', g') && TailOk(s, g)
    ensures ShapeOk(s', g') && TailOk(s', g')
  {}

  lemma ForgetIndex(s: State, g: Ghosts, s': State, g': Ghosts)
    requires IndexOk(s, g) && Forgotten(s, g, s', g') && ShapeOk(s', g')
    ensures IndexOk(s', g')
  {
    if s.headers != [] {
      ForgetKeys(s, g, s', g');
      ForgetInsert(s, g, s', g');
      ForgetValues(s, g, s', g');
    }
    forall j: nat | j < |s'.headers| ensures OlderOk(s', g', j) {
      ForgetOlder(s, g, s', g', j);
    }
  }

  lemma ForgetKeys(s: State, g: Ghosts, s': State, g': Ghosts)
    requires IndexOk(s, g) && s.headers != [] && Forgotten(s, g, s', g') && ShapeOk(s', g')
    ensures OldKeys(s', g')
  {
    forall e | 0 <= e < |s'.entries| ensures KeyOk(s', g', e) {
      ForgetKey(s, g, s', g', e);
    }
    forall x | g'.k <= x < g'.k + Cap(g'.ix) ensures SlotOk(s', g', x) {
      ForgetSlot(s, g, s', g', x);
    }
  }

  lemma ForgetKey(s: State, g: Ghosts, s': State, g': Ghosts, e: nat)
    requires ShapeOk(s, g) && s.headers != [] && Forgotten(s, g, s', g') && ShapeOk(s', g')
    requires e < |s.entries| && KeyOk(s, g, e)
    ensures KeyOk(s', g', e)
  {}

  lemma ForgetInsert(s: State, g: Ghosts, s': State, g': Ghosts)
    requires ShapeOk(s, g) && s.headers != [] && InsertOk(s, g) && Forgotten(s, g, s', g') && ShapeOk(s', g')
    ensures InsertOk(s', g')
  {
    assert TailAt(s', g') == TailAt(s, g);
  }

  lemma ForgetSlot(s: State, g: Ghosts, s': State, g': Ghosts, x: int)
    requires IndexOk(s, g) && s.headers != [] && Forgotten(s, g, s', g') && ShapeOk(s', g')
    requires g'.k <= x < g'.k + Cap(g.ix)
    ensures SlotOk(s', g', x)
  {
    if x < g.k {
      UndoneSlot(s, g, s', g', x);
      UndoneStays(s, g, s', g', x);
    } else {
      SlotStays(s, g, s', g', x);
    }
  }

  lemma UndoneStays(s: State, g: Ghosts, s': State, g': Ghosts, x: nat)
    requires ShapeOk(s, g) && s.headers != [] && Forgotten(s, g, s', g') && ShapeOk(s', g') && g'.k <= x < g.k
    requires EntryAt(s.entries, g.ix, x) == Entry(BLOCK_SIZE * x, Null)
    requires x - Cap(g.ix) >= Origin(g.ix) ==> x - Cap(g.ix) in g.nulled
    ensures SlotOk(s', g', x)
  {}

  lemma SlotStays(s: State, g: Ghosts, s': State, g': Ghosts, x: int)
    requires ShapeOk(s, g) && s.headers != [] && Forgotten(s, g, s', g') && ShapeOk(s', g')
    requires g.k <= x < g'.k + Cap(g.ix) && SlotOk(s, g, x)
    ensures SlotOk(s', g', x)
  {}

  /** A position that has been undone: its key is left, and its entry is clear. */
  lemma UndoneSlot(s: State, g: Ghosts, s': State, g': Ghosts, x: nat)
    requires IndexOk(s, g) && s.headers != [] && Forgotten(s, g, s', g') && g'.k <= x < g.k
    ensures EntryAt(s.entries, g.ix, x) == Entry(BLOCK_SIZE * x, Null)
    ensures x - Cap(g.ix) >= Origin(g.ix) ==> x - Cap(g.ix) in g.nulled
  {
    KeyBehind(s, g, x);
    assert x in g.nulled && Low(g) <= x;
    assert EntryAt(s.entries, g.ix, x).value == Null;
    if x - Cap(g.ix) >= Origin(g.ix) { assert x - Cap(g.ix) < Low(g); }
  }

  lemma ForgetValues(s: State, g: Ghosts, s': State, g': Ghosts)
    requires IndexOk(s, g) && s.headers != [] && Forgotten(s, g, s', g') && ShapeOk(s', g')
    ensures ValuesOk(s', g')
  {
    forall p: nat | p < g'.k && p !in g'.nulled ensures Low(g') <= p {
      assert p !in g.nulled;
    }
    forall p | Low(g') <= p < g'.k
      ensures EntryAt(s'.entries, g'.ix, p).value == if p in g'.nulled then Null else At(g'.pos[p])
    {
      ForgetValue(s, g, s', g', p);
    }
  }

  lemma ForgetValue(s: State, g: Ghosts, s': State, g': Ghosts, p: int)
    requires IndexOk(s, g) && s.headers != [] && Forgotten(s, g, s', g') && ShapeOk(s', g')
    requires Low(g') <= p < g'.k
    ensures EntryAt(s'.entries, g'.ix, p).value == if p in g'.nulled then Null else At(g'.pos[p])
  {
    if Low(g) <= p {
      assert EntryAt(s.entries, g.ix, p).value == if p in g.nulled then Null else At(g.pos[p]);
    } else {
      EntryPeriod(g, Last(g.ix), p);
      UndoneSlot(s, g, s', g', p + Cap(g.ix));
      assert p in g.nulled;
    }
  }

  lemma ForgetOlder(s: State, g: Ghosts, s': State, g': Ghosts, j: nat)
    requires ShapeOk(s, g) && ValuesOk(s, g) && Forgotten(s, g, s', g') && ShapeOk(s', g')
    requires j < |s.headers| && OlderOk(s, g, j)
    ensures OlderOk(s', g', j)
  {
    ForgetLink(g, g', j);
    forall p: nat | Low(g') <= p < Hi(g', j) && p !in g'.nulled
      ensures EntryOf(g'.ix, Last(g'.ix), p) < |g'.ix.index[j]|
    {
      assert p !in g.nulled && Low(g) <= p < Hi(g, j);
    }
  }

  lemma ForgetLink(g: Ghosts, g': Ghosts, j: nat)
    requires g'.ix.index == g.ix.index && g'.ix.origin == g.ix.origin
    requires j < |g.ix.index| == |g.ix.origin| && |g.ix.index[j]| > 0 && Cap(g.ix) > 0 && LinkOk(g.ix, j)
    ensures LinkOk(g'.ix, j)
  {
    forall x: int | EntryOf(g'.ix, Last(g'.ix), x) < |g'.ix.index[j]|
      ensures EntryOf(g'.ix, j, x) == EntryOf(g'.ix, Last(g'.ix), x)
    {
      assert EntryOf(g.ix, Last(g.ix), x) < |g.ix.index[j]|;
    }
  }

  lemma ForgetBlocks(s: State, g: Ghosts, s': State, g': Ghosts)
    requires |g.pos| == g.k && BlocksOk(s, g) && FinishedOk(s, g) && Forgotten(s, g, s', g') && s.c.head <= s.c.tail
    ensures BlocksOk(s', g')
  {
    forall q: nat | q < g'.k && s'.freed[q] == 0 ensures UsedBlock(s', g', q) {
      assert UsedBlock(s, g, q);
    }
    forall i | 0 <= i < |s.batch| ensures BatchBlock(s, g, g'.k, i) {
      UnpublishedIsLive(s, g, BLOCK_SIZE * (g'.k + i));
      assert UsedBlock(s, g, g'.k + i);
    }
    BatchIsApart(s, g, s', g');
  }

  ghost predicate BatchBlock(s: State, g: Ghosts, k0: nat, i: nat)
  {
    && i < |s.batch| && k0 + i < |g.pos| && s.batch[i] == g.pos[k0 + i]
    && s.freed[k0 + i] == 0 && s.batch[i] in s.ours
  }

  lemma BatchIsApart(s: State, g: Ghosts, s': State, g': Ghosts)
    requires |g.pos| == g.k && BlocksOk(s, g) && Forgotten(s, g, s', g')
    requires forall i | 0 <= i < |s.batch| :: BatchBlock(s, g, g'.k, i)
    ensures BatchApart(s', g')
  {
    forall i, j | 0 <= i < j < |s.batch| ensures s.batch[i] != s.batch[j] {
      assert BatchBlock(s, g, g'.k, i) && BatchBlock(s, g, g'.k, j);
    }
    forall p, i | 0 <= p < g'.k && s.freed[p] == 0 && 0 <= i < |s.batch| ensures g'.pos[p] != s.batch[i] {
      assert BatchBlock(s, g, g'.k, i);
    }
    forall i | 0 <= i < |s.batch| ensures s.batch[i] in s.ours {
      assert BatchBlock(s, g, g'.k, i);
    }
  }

  lemma ForgetFinished(s: State, g: Ghosts, s': State, g': Ghosts)
    requires FinishedOk(s, g) && Forgotten(s, g, s', g') && s.c.head <= s.c.tail
    ensures FinishedOk(s', g')
  {
    forall p: nat ensures ReleaseOk(s', p) {
      assert ReleaseOk(s, p);
    }
    forall p | p in s.freed ensures p in g'.nulled {
      if p >= g'.k { UnpublishedIsLive(s, g, BLOCK_SIZE * p); }
    }
  }

  lemma ForgetReaders(s: State, g: Ghosts, s': State, g': Ghosts)
    requires C.Safe(s.c) && ReadersOk(s, g) && Forgotten(s, g, s', g')
    ensures ReadersOk(s', g')
  {
    forall u: nat | u < |s'.readers| ensures ReaderOk(s', g', u) {
      assert ReaderOk(s, g, u);
      ForgetReader(s, g, s', g', u);
    }
  }

  lemma ForgetReader(s: State, g: Ghosts, s': State, g': Ghosts, u: nat)
    requires C.Safe(s.c) && Forgotten(s, g, s', g') && u < |s.readers| == |s.c.threads| && ReaderOk(s, g, u)
    ensures ReaderOk(s', g', u)
  {
    if s.c.threads[u].Reading? {
      C.ClaimBelowTail(s.c, u);
      FrontierOpen(s, g, u);
      assert Open(s', Frontier(s, u), C.ClaimEnd(s.c, u));
      ForgetSees(s, g, s', g', C.ClaimEnd(s.c, u));
      if s.readers[u].RFree? || s.readers[u].RNull? { PositionBelow(s.readers[u].from, s.c.tail); }
    }
    ReaderKept(s, g, s', g', u);
  }

  lemma ForgetSees(s: State, g: Ghosts, s': State, g': Ghosts, end: nat)
    requires Forgotten(s, g, s', g') && end <= s.c.tail
    ensures Sees(s, g, s', g', end)
  {
    forall h: nat | Knows(g, h, end)
      ensures Knows(g', h, end) && g'.ix.index[h] == g.ix.index[h] && g'.ix.origin[h] == g.ix.origin[h]
    {
      assert end <= BLOCK_SIZE * Positions(s.c.tail);
    }
  }

  // ------------------------------------------------------------------ giving new blocks back

  lemma GiveKeeps(s: State, g: Ghosts, s': State)
    requires Inv(s, g) && s.producer.PGive? && ProducerStep(s, s')
    ensures Inv(s', g)
  {
    SameIndexKeeps(s, g, s');
    GivenTail(s, g, s');
    GivenBlocks(s, g, s');
    FinishedStep(s, g, s', g);
    SameReaders(s, g, s');
  }

  lemma GivenTail(s: State, g: Ghosts, s': State)
    requires ShapeOk(s, g) && TailOk(s, g) && s.producer.PGive? && ProducerStep(s, s') && FinishedOk(s, g)
    ensures TailOk(s', g)
  {
    assert g.pos[g.k..] == [];
  }

  lemma GivenBlocks(s: State, g: Ghosts, s': State)
    requires |g.pos| == g.k && BlocksOk(s, g) && s.producer.PGive? && ProducerStep(s, s')
    ensures BlocksOk(s', g)
  {
    forall q: nat | q < g.k && s'.freed[q] == 0 ensures UsedBlock(s', g, q) {
      assert UsedBlock(s, g, q);
    }
  }
}
