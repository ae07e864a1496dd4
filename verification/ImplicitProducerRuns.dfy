/** What holds of the implicit producer in every state of every run in which each dequeue
    asks for at least one element. */
module ImplicitProducerRuns {
  import opened Totals
  import opened Blocks
  import opened Modular
  import opened ImplicitProducer
  import opened ImplicitProducerProof
  import opened ImplicitProducerSteps
  import C = DequeueCounters

  // ------------------------------------------------------------------ executions

  lemma ProducerKeeps(s: State, g: Ghosts, s': State) returns (g': Ghosts)
    requires Inv(s, g) && ProducerStep(s, s') && C.Safe(s'.c)
    ensures Inv(s', g')
  {
    if Inserting(s.producer) {
      g' := InsertingKeeps(s, g, s');
    } else if s.producer.PWrite? {
      g' := g;
      FillKeeps(s, g, s');
    } else if s.producer.PUndo? || s.producer.PBack? || s.producer.PGive? {
      g' := UndoingKeeps(s, g, s');
    } else {
      g' := g;
      match s.producer
      case PIdle => IdleKeeps(s, g, s');
      case PInsert(_) => InsertKeeps(s, g, s');
      case PGrow(_) => g' := GrowingKeeps(s, g, s');
      case PKey(_) => g' := KeyStoredKeeps(s, g, s');
    }
  }

  lemma GrowingKeeps(s: State, g: Ghosts, s': State) returns (g': Ghosts)
    requires Inv(s, g) && ProducerStep(s, s') && s.producer.PGrow?
    ensures Inv(s', g')
  {
    if s' == s.(producer := PUndo(0)) {
      g' := g;
      PhaseKeeps(s, g, s');
    } else {
      g' := GrowKeeps(s, g, s');
    }
  }

  lemma InsertingKeeps(s: State, g: Ghosts, s': State) returns (g': Ghosts)
    requires Inv(s, g) && ProducerStep(s, s') && Inserting(s.producer)
    ensures Inv(s', g')
  {
    g' := g;
    match s.producer
    case PTail(_) => AdvancedKeeps(s, g, s');
    case PAlloc(_) => AllocKeeps(s, g, s');
    case PRewind => MovedBackKeeps(s, g, s');
    case PClear => ClearedKeeps(s, g, s');
    case PValue(_, _) => g' := StoreKeeps(s, g, s');
  }

  lemma AllocKeeps(s: State, g: Ghosts, s': State)
    requires Inv(s, g) && ProducerStep(s, s') && s.producer.PAlloc?
    ensures Inv(s', g)
  {
    if s' == s.(producer := PRewind) {
      TailFrame(s, g, s', g);
      PhaseKeeps(s, g, s');
    } else {
      var b :| Taken(s, b, s') && s'.producer == PValue(s.producer.vs, b);
      TailFrame(s, g, s', g);
      TakeKeeps(s, g, s', b);
    }
  }

  lemma FillKeeps(s: State, g: Ghosts, s': State)
    requires Inv(s, g) && ProducerStep(s, s') && s.producer.PWrite? && C.Safe(s'.c)
    ensures Inv(s', g)
  {
    if s.producer.at == |s.producer.vs| {
      PublishKeeps(s, g, s');
    } else if s' == s.(producer := PUndo(0)) {
      PhaseKeeps(s, g, s');
    } else {
      WriteKeeps(s, g, s');
    }
  }

  lemma UndoingKeeps(s: State, g: Ghosts, s': State) returns (g': Ghosts)
    requires Inv(s, g) && ProducerStep(s, s') && (s.producer.PUndo? || s.producer.PBack? || s.producer.PGive?)
    ensures Inv(s', g')
  {
    g' := g;
    match s.producer
    case PUndo(i) =>
      if i < |s.batch| {
        g' := UndoKeeps(s, g, s');
      } else {
        g' := ForgetKeeps(s, g, s');
      }
    case PBack(_) => MovedBackKeeps(s, g, s');
    case PGive => GiveKeeps(s, g, s');
  }

  lemma ConsumerKeeps(s: State, g: Ghosts, t: nat, s': State) returns (g': Ghosts)
    requires Inv(s, g) && ConsumerStep(s, t, s') && C.Safe(s'.c) && C.NoneEmpty(s'.c)
    ensures Inv(s', g')
  {
    g' := g;
    if LookupStep(s, t, s') {
      LookupKeeps(s, g, t, s');
    } else if ReadStep(s, t, s') {
      ReadKeeps(s, g, t, s');
    } else if CountStep(s, t, s') {
      assert ReaderOk(s, g, t);
      CounterMove(s, g, t, s');
    } else {
      g' := ReleaseKeeps(s, g, t, s');
    }
  }

  lemma ReleaseKeeps(s: State, g: Ghosts, t: nat, s': State) returns (g': Ghosts)
    requires Inv(s, g) && ReleaseStep(s, t, s') && C.Safe(s'.c) && C.NoneEmpty(s'.c)
    ensures Inv(s', g')
  {
    g' := g;
    match s.readers[t]
    case RCount(_, _, _, _, _) => CountKeeps(s, g, t, s');
    case RNull(_, _, _, _, _) => g' := NullKeeps(s, g, t, s');
    case RFree(_, _, _, _, _) => FreeKeeps(s, g, t, s');
    case RNext(_, _, _) => AdvanceKeeps(s, g, t, s');
  }

  lemma ProducerProjects(s: State, s': State)
    requires ProducerStep(s, s')
    ensures s'.c == s.c || exists n: nat :: C.Publish(s.c, n, s'.c)
  {
    if s.producer.PAlloc? && s' != s.(producer := PRewind) {
      var b :| Taken(s, b, s') && s'.producer == PValue(s.producer.vs, b);
    }
  }

  lemma ConsumerProjects(s: State, t: nat, s': State)
    requires ConsumerStep(s, t, s')
    ensures s'.c == s.c || C.ThreadStep(s.c, t, s'.c)
  {
    if LookupStep(s, t, s') {
      LookupProjects(s, t, s');
    } else if ReadStep(s, t, s') {
      ReadProjects(s, t, s');
    } else if ReleaseStep(s, t, s') {
      ReleaseProjects(s, t, s');
    }
  }

  lemma LookupProjects(s: State, t: nat, s': State)
    requires LookupStep(s, t, s')
    ensures s'.c == s.c
  {}

  lemma ReadProjects(s: State, t: nat, s': State)
    requires ReadStep(s, t, s')
    ensures s'.c == s.c
  {}

  lemma ReleaseProjects(s: State, t: nat, s': State)
    requires ReleaseStep(s, t, s')
    ensures s'.c == s.c || C.ThreadStep(s.c, t, s'.c)
  {}

  lemma CountersKeep(s: State, cg: C.Ghosts, s': State) returns (cg': C.Ghosts)
    requires C.Inv(s.c, cg) && C.Ledger(s.c) && C.NoneEmpty(s.c) && Next(s, s') && C.Asks(s'.c, 1)
    ensures C.Inv(s'.c, cg') && C.Ledger(s'.c) && C.NoneEmpty(s'.c)
  {
    if ProducerStep(s, s') {
      ProducerProjects(s, s');
      assert s'.c.threads == s.c.threads;
    } else {
      var t: nat :| ConsumerStep(s, t, s');
      ConsumerProjects(s, t, s');
      if s'.c != s.c { C.NoneEmptyKeeps(s.c, t, s'.c); }
    }
    if s'.c == s.c {
      cg' := cg;
    } else {
      cg' := C.NextKeeps(s.c, cg, s'.c);
    }
  }

  lemma NextKeeps(s: State, g: Ghosts, cg: C.Ghosts, s': State) returns (g': Ghosts, cg': C.Ghosts)
    requires Inv(s, g) && C.Inv(s.c, cg) && C.Ledger(s.c) && Next(s, s') && C.Asks(s'.c, 1)
    ensures Inv(s', g') && C.Inv(s'.c, cg') && C.Ledger(s'.c)
  {
    cg' := CountersKeep(s, cg, s');
    C.MakesSafe(s'.c, cg');
    if ProducerStep(s, s') {
      g' := ProducerKeeps(s, g, s');
    } else {
      var t: nat :| ConsumerStep(s, t, s');
      g' := ConsumerKeeps(s, g, t, s');
    }
  }

  lemma StartOk(s: State, g: Ghosts)
    requires Start(s) && g == Ghosts(0, 0, [], {}, Indices([], [], [])) && C.Safe(s.c)
    ensures Inv(s, g)
  {
    assert g.pos[0..] == [] && Positions(0) == 0;
    assert TailOk(s, g) && C.NoneEmpty(s.c);
    StartFinished(s, g);
  }

  lemma StartFinished(s: State, g: Ghosts)
    requires s.finished == {} && s.freed == multiset{} && g.nulled == {}
    requires forall t | 0 <= t < |s.readers| :: s.readers[t] == RNone
    ensures FinishedOk(s, g)
  {
    forall p: nat ensures ReleaseOk(s, p) {
      TotalZero(s.readers, Releasing(p));
      assert BLOCK_SIZE * p !in s.finished;
    }
  }

  /** The index made by the constructor. */
  lemma GrownStartOk(s0: State, s: State, g: Ghosts)
    requires Start(s0) && IndexGrown(s0, s) && s.producer == PIdle && s.headers != []
    requires g == Ghosts(0, 0, [], {}, Indices([Newest(s).index], [0], [0]))
    ensures IndexOk(s, g)
  {
    assert ShapeOk(s, g);
    WrapPeriod(-1, Cap(g.ix));
    forall e | 0 <= e < |s.entries| ensures KeyOk(s, g, e) {}
  }

  lemma InitKeeps(s: State) returns (g: Ghosts, cg: C.Ghosts)
    requires Init(s)
    ensures Inv(s, g) && C.Inv(s.c, cg) && C.Ledger(s.c)
  {
    g := Ghosts(0, 0, [], {}, Indices([], [], []));
    if Start(s) {
      cg := C.InitInv(s.c);
      C.MakesSafe(s.c, cg);
      StartOk(s, g);
    } else {
      var s0 :| Start(s0) && IndexGrown(s0, s) && s.producer == PIdle;
      cg := C.InitInv(s0.c);
      C.MakesSafe(s0.c, cg);
      StartOk(s0, g);
      var g' := g.(ix := Indices([Newest(s).index], [0], [0]));
      GrownStartOk(s0, s, g');
      IndexStep(s0, g, s, g');
      g := g';
    }
  }

  lemma {:induction false} Reachable(tr: seq<State>, i: nat) returns (g: Ghosts, cg: C.Ghosts)
    requires Execution(tr) && Asks(tr, 1) && i < |tr|
    ensures Inv(tr[i], g) && C.Inv(tr[i].c, cg) && C.Ledger(tr[i].c)
  {
    if i == 0 {
      g, cg := InitKeeps(tr[0]);
    } else {
      g, cg := Reachable(tr, i - 1);
      g, cg := NextKeeps(tr[i - 1], g, cg, tr[i]);
    }
  }

  // ------------------------------------------------------------------ main results

  /** The entry that a consumer computed names its block base and a block in use. */
  ghost predicate Found(s: State, h: nat, slot: int, i: nat, block: Ptr)
  {
    && InIndex(s, h, slot)
    && s.entries[s.headers[h].index[slot]].key == BlockBase(i)
    && s.entries[s.headers[h].index[slot]].value == block
    && block.At? && block.block in s.ours && block.block in s.elems && |s.elems[block.block]| == BLOCK_SIZE
  }

  /** What a consumer finds at each point of its lookup, reading and release. */
  ghost predicate ReaderSafe(s: State, t: nat)
    requires t < |s.readers|
  {
    match s.readers[t]
    case RNone => true
    case RStart => s.headers != []
    case RTail(h) => h < |s.headers|
    case RKey(h, q) => InIndex(s, h, q) && s.entries[s.headers[h].index[q]].key != INVALID_BLOCK_BASE
    case RValue(h, slot, i) =>
      InIndex(s, h, slot) && Found(s, h, slot, i, s.entries[s.headers[h].index[slot]].value)
    case RRead(h, slot, block, from, at) =>
      && Found(s, h, slot, from, block) && Active(s, t)
      && (at < BlockEnd(from, C.ClaimEnd(s.c, t)) ==>
            at < |s.enqueued| && s.elems[block.block][at % BLOCK_SIZE] == s.enqueued[at])
    case RCount(h, slot, block, from, to) =>
      && Found(s, h, slot, from, block) && block.block in s.dequeued
      && from < to && s.dequeued[block.block] + (to - from) <= BLOCK_SIZE
    case RNull(h, slot, block, from, to) => Found(s, h, slot, from, block)
    case RFree(h, slot, block, from, to) => block.At? && block.block in s.ours && s.freed[from / BLOCK_SIZE] == 0
    case RNext(h, slot, to) => h < |s.headers| && s.headers[h].capacity > 0
  }

  lemma FoundLive(s: State, g: Ghosts, h: nat, slot: int, i: nat)
    requires IndexOk(s, g) && BlocksOk(s, g) && h < |s.headers| && i / BLOCK_SIZE < Hi(g, h)
    requires AtSlot(g, h, slot, i / BLOCK_SIZE) && i / BLOCK_SIZE !in g.nulled && s.freed[i / BLOCK_SIZE] == 0
    ensures i / BLOCK_SIZE < g.k && Found(s, h, slot, i, At(g.pos[i / BLOCK_SIZE]))
  {
    SharedEntry(s, g, h, i / BLOCK_SIZE);
    assert UsedBlock(s, g, i / BLOCK_SIZE);
  }

  lemma ReadingSafe(s: State, g: Ghosts, t: nat)
    requires Inv(s, g) && t < |s.readers| && s.c.threads[t].Reading? && s.readers[t].RRead?
    ensures ReaderSafe(s, t)
  {
    assert ReaderOk(s, g, t);
    var r := s.readers[t];
    C.ClaimBelowTail(s.c, t);
    OpenIsLive(s, g, r.from);
    FoundLive(s, g, r.h, r.slot, r.from);
    if r.at < BlockEnd(r.from, C.ClaimEnd(s.c, t)) { ReadValue(s, g, t); }
  }

  lemma CountingSafe(s: State, g: Ghosts, t: nat)
    requires Inv(s, g) && t < |s.readers| && s.c.threads[t].Reading? && s.readers[t].RCount?
    ensures ReaderSafe(s, t)
  {
    assert ReaderOk(s, g, t);
    var r := s.readers[t];
    var p := r.from / BLOCK_SIZE;
    C.ClaimBelowTail(s.c, t);
    OpenIsLive(s, g, r.from);
    FoundLive(s, g, r.h, r.slot, r.from);
    assert UsedBlock(s, g, p);
    FinCountAdd(s.finished, BLOCK_SIZE * p, BLOCK_SIZE, r.from, r.to);
    FinCountBounds(s.finished + Range(r.from, r.to), BLOCK_SIZE * p, BLOCK_SIZE);
  }

  lemma ReleasingSafe(s: State, g: Ghosts, t: nat)
    requires Inv(s, g) && t < |s.readers| && s.c.threads[t].Reading? && (s.readers[t].RNull? || s.readers[t].RFree?)
    ensures ReaderSafe(s, t)
  {
    assert ReaderOk(s, g, t);
    var r := s.readers[t];
    OnlyReleaser(s, t, r.from / BLOCK_SIZE);
    assert UsedBlock(s, g, r.from / BLOCK_SIZE);
    if r.RNull? { FoundLive(s, g, r.h, r.slot, r.from); }
  }

  lemma ReaderIsSafe(s: State, g: Ghosts, t: nat)
    requires Inv(s, g) && t < |s.readers|
    ensures ReaderSafe(s, t)
  {
    assert ReaderOk(s, g, t);
    if s.c.threads[t].Reading? {
      match s.readers[t]
      case RStart =>
        C.ClaimBelowTail(s.c, t);
        TailBelow(s, g);
      case RValue(h, slot, i) =>
        C.ClaimBelowTail(s.c, t);
        OpenIsLive(s, g, i);
        FoundLive(s, g, h, slot, i);
      case RRead(_, _, _, _, _) => ReadingSafe(s, g, t);
      case RCount(_, _, _, _, _) => CountingSafe(s, g, t);
      case RNull(_, _, _, _, _) => ReleasingSafe(s, g, t);
      case RFree(_, _, _, _, _) => ReleasingSafe(s, g, t);
      case _ =>
    }
  }

  /** The lookup of every claimed, unfinished index is right in every reachable state:
      through insertion, rewinding, any number of doublings and blocks completing in any
      order, the slot holds the right key and a block that is in use. */
  lemma LookupSound(tr: seq<State>, i: nat, t: nat)
    requires Execution(tr) && Asks(tr, 1) && i < |tr| && t < |tr[i].readers|
    ensures ReaderSafe(tr[i], t)
  {
    var g, cg := Reachable(tr, i);
    ReaderIsSafe(tr[i], g, t);
  }

  /** Every value read for an index is the value enqueued at that index, and exactly one
      consumer was granted that index. */
  lemma ReadsWhatWasEnqueued(tr: seq<State>, i: nat, x: nat) returns (k: nat)
    requires Execution(tr) && Asks(tr, 1) && i < |tr| && x in tr[i].read
    ensures x < tr[i].c.tail == |tr[i].enqueued| && tr[i].read[x] == tr[i].enqueued[x]
    ensures k < |tr[i].c.grants| && C.Covers(tr[i].c.grants[k], x)
    ensures forall j | 0 <= j < |tr[i].c.grants| && j != k :: !C.Covers(tr[i].c.grants[j], x)
  {
    var g, cg := Reachable(tr, i);
    k := C.TiledOnce(tr[i].c.grants, tr[i].c.head, x);
  }

  /** A block is given back at most once; and its 32 elements have all been taken out
      exactly when it has been given back or just one consumer is about to do so. */
  lemma ReleasedOnce(tr: seq<State>, i: nat, p: nat)
    requires Execution(tr) && Asks(tr, 1) && i < |tr|
    ensures var s := tr[i];
      && s.freed[p] <= 1
      && (s.freed[p] == 1 ==> forall t | 0 <= t < |s.readers| :: !Releases(s.readers[t], p))
      && (Full(s.finished, p) <==>
            s.freed[p] == 1 || exists t :: 0 <= t < |s.readers| && Releases(s.readers[t], p))
      && (forall t, u | 0 <= t < u < |s.readers| :: !(Releases(s.readers[t], p) && Releases(s.readers[u], p)))
  {
    var g, cg := Reachable(tr, i);
    var s := tr[i];
    assert ReleaseOk(s, p);
    TotalNat(s.readers, Releasing(p));
    forall t: nat | t < |s.readers| && Releases(s.readers[t], p)
      ensures s.freed[p] == 0 && Full(s.finished, p)
      ensures forall u | 0 <= u < |s.readers| && u != t :: !Releases(s.readers[u], p)
    {
      OnlyReleaser(s, t, p);
    }
    if Full(s.finished, p) && s.freed[p] != 1 {
      var t := TotalWitness(s.readers, Releasing(p));
    }
  }

  /** The consumer that gives a block back is the one that finished its last element. */
  lemma LastFinisherReleases(tr: seq<State>, i: nat, t: nat)
    requires Execution(tr) && Asks(tr, 1) && i + 1 < |tr| && t < |tr[i].readers| && tr[i].readers[t].RCount?
    requires ReleaseStep(tr[i], t, tr[i + 1])
    ensures var p := tr[i].readers[t].from / BLOCK_SIZE;
      !Full(tr[i].finished, p) && (Full(tr[i + 1].finished, p) <==> tr[i + 1].readers[t].RNull?)
  {
    var g, cg := Reachable(tr, i);
    var s := tr[i];
    assert ReaderOk(s, g, t);
    C.ClaimBelowTail(s.c, t);
    OpenIsLive(s, g, s.readers[t].from);
    CountFull(s, g, t, tr[i + 1], s.readers[t].from / BLOCK_SIZE);
  }

  // ------------------------------------------------------------------ failed enqueues

  /** The lookup that a consumer of index x begins now, on the newest index. */
  ghost predicate FoundNow(s: State, x: nat)
  {
    && Indexed(s) && 0 <= Newest(s).tail < Newest(s).capacity
    && var key := s.entries[Newest(s).index[Newest(s).tail]].key;
    && var slot := LookupSlot(Newest(s).tail, key, x, Newest(s).capacity);
    && key != INVALID_BLOCK_BASE && InIndex(s, |s.headers| - 1, slot)
    && var block := s.entries[Newest(s).index[slot]].value;
    && Found(s, |s.headers| - 1, slot, x, block)
    && x < |s.enqueued| && s.elems[block.block][x % BLOCK_SIZE] == s.enqueued[x]
  }

  /** Before, during and after every enqueue, whether it goes through or is undone, the
      newest index leads from its tail to the block and the element of every index that is
      published and not taken out. */
  lemma AlwaysFound(tr: seq<State>, i: nat, x: nat)
    requires Execution(tr) && Asks(tr, 1) && i < |tr| && x < tr[i].c.tail && x !in tr[i].finished
    ensures FoundNow(tr[i], x)
  {
    var g, cg := Reachable(tr, i);
    IsFound(tr[i], g, x);
  }

  lemma IsFound(s: State, g: Ghosts, x: nat)
    requires Inv(s, g) && x < s.c.tail && x !in s.finished
    ensures FoundNow(s, x)
  {
    PositionBelow(x, s.c.tail);
    OpenIsLive(s, g, x);
    LiveIsFound(s, g, x / BLOCK_SIZE, x);
  }

  lemma LiveIsFound(s: State, g: Ghosts, p: nat, x: nat)
    requires IndexOk(s, g) && TailOk(s, g) && BlocksOk(s, g) && x < s.c.tail
    requires p == x / BLOCK_SIZE < Positions(s.c.tail) && p !in g.nulled && s.freed[p] == 0
    ensures FoundNow(s, x)
  {
    TailBelow(s, g);
    LeadsFromTail(s, g, p, x);
    FoundLive(s, g, Last(g.ix), Wrap(p - Origin(g.ix), Cap(g.ix)), x);
    ElementAt(s, g, p, x);
  }

  lemma LeadsFromTail(s: State, g: Ghosts, p: nat, x: nat)
    requires IndexOk(s, g) && TailOk(s, g) && p == x / BLOCK_SIZE < Positions(s.c.tail) && p !in g.nulled
    ensures Indexed(s) && 0 <= Newest(s).tail < Newest(s).capacity == Cap(g.ix)
    ensures var key := s.entries[Newest(s).index[Newest(s).tail]].key;
      && key != INVALID_BLOCK_BASE
      && LookupSlot(Newest(s).tail, key, x, Newest(s).capacity) == Wrap(p - Origin(g.ix), Cap(g.ix))
  {
    TailBelow(s, g);
    assert Low(g) <= p;
    var h, q := Last(g.ix), Newest(s).tail;
    TailKeyValid(s, g, h, p);
    SlotOfKey(s, g, h, q);
    LookupLeads(q, s.entries[g.ix.index[h][q]].key, x, g.ix.origin[h], |g.ix.index[h]|);
  }

  /** The undo clears exactly the entries that the failed enqueue filled: looked up from the
      tail wherever that has been moved to, the entry of new block j has the key and the
      block that were stored there. */
  lemma UndoClearsItsOwn(tr: seq<State>, i: nat)
    requires Execution(tr) && Asks(tr, 1) && i < |tr|
    requires tr[i].producer.PUndo? && tr[i].producer.i < |tr[i].batch|
    ensures var s, j := tr[i], tr[i].producer.i;
      && Indexed(s) && 0 <= Newest(s).tail < Newest(s).capacity && InIndex(s, |s.headers| - 1, UndoSlot(s, j))
      && s.entries[Newest(s).index[UndoSlot(s, j)]]
           == Entry(BLOCK_SIZE * (Positions(s.c.tail) + j), At(s.batch[j]))
  {
    var g, cg := Reachable(tr, i);
    UndoOwn(tr[i], g);
  }

  lemma UndoOwn(s: State, g: Ghosts)
    requires IndexOk(s, g) && TailOk(s, g) && s.producer.PUndo? && s.producer.i < |s.batch|
    ensures Indexed(s) && 0 <= Newest(s).tail < Newest(s).capacity
    ensures InIndex(s, |s.headers| - 1, UndoSlot(s, s.producer.i))
    ensures s.entries[Newest(s).index[UndoSlot(s, s.producer.i)]]
         == Entry(BLOCK_SIZE * (Positions(s.c.tail) + s.producer.i), At(s.batch[s.producer.i]))
  {
    UndoFinds(s, g);
  }

  /** When an enqueue has failed, the tail of the index is back at the entry of the last
      published block, as long as that has not been taken out completely. */
  lemma UndoRestoresTail(tr: seq<State>, i: nat)
    requires Execution(tr) && Asks(tr, 1) && i < |tr| && tr[i].producer.PGive?
    ensures var s := tr[i];
      s.headers != [] ==>
        && Indexed(s) && 0 <= Newest(s).tail < Newest(s).capacity
        && (s.c.tail > 0 && s.c.tail - 1 !in s.finished ==>
              var e := s.entries[Newest(s).index[Newest(s).tail]];
              e.key == BlockBase(s.c.tail - 1) && e.value.At?)
  {
    var g, cg := Reachable(tr, i);
    var s := tr[i];
    if s.headers != [] && s.c.tail > 0 && s.c.tail - 1 !in s.finished {
      OpenIsLive(s, g, s.c.tail - 1);
      RestoredTail(s, g);
    }
  }

  lemma RestoredTail(s: State, g: Ghosts)
    requires IndexOk(s, g) && TailOk(s, g) && s.producer.PGive? && s.headers != [] && s.c.tail > 0
    requires (s.c.tail - 1) / BLOCK_SIZE !in g.nulled
    ensures Indexed(s) && 0 <= Newest(s).tail < Newest(s).capacity
    ensures var e := s.entries[Newest(s).index[Newest(s).tail]]; e.key == BlockBase(s.c.tail - 1) && e.value.At?
  {
    assert (s.c.tail - 1) / BLOCK_SIZE == g.k - 1;
    SharedEntry(s, g, Last(g.ix), g.k - 1);
  }

  /** Blocks are conserved: those taken from the pool and not given back are the ones of
      positions not given back, of the enqueue in progress, and the one about to be stored. */
  ghost predicate Held(s: State)
  {
    |s.ours| == Positions(s.c.tail) + |s.batch| + One(s.producer.PValue?) - |s.freed|
  }

  lemma BlocksConserved(tr: seq<State>, i: nat)
    requires Execution(tr) && Asks(tr, 1) && i < |tr|
    ensures Held(tr[i])
    ensures tr[i].producer.PIdle? ==> |tr[i].ours| == Positions(tr[i].c.tail) - |tr[i].freed|
  {
    HeldAlways(tr, i);
    var g, cg := Reachable(tr, i);
  }

  lemma {:induction false} HeldAlways(tr: seq<State>, i: nat)
    requires Execution(tr) && Asks(tr, 1) && i < |tr|
    ensures Held(tr[i])
  {
    if i > 0 {
      HeldAlways(tr, i - 1);
      var g, cg := Reachable(tr, i - 1);
      assert Next(tr[i - 1], tr[i]);
      HeldKeeps(tr[i - 1], g, tr[i]);
    }
  }

  lemma HeldKeeps(s: State, g: Ghosts, s': State)
    requires Inv(s, g) && Held(s) && Next(s, s')
    ensures Held(s')
  {
    if ProducerStep(s, s') {
      HeldByProducer(s, g, s');
    } else {
      var t: nat :| ConsumerStep(s, t, s');
      HeldByConsumer(s, g, t, s');
    }
  }

  lemma HeldByProducer(s: State, g: Ghosts, s': State)
    requires Inv(s, g) && Held(s) && ProducerStep(s, s')
    ensures Held(s')
  {
    if s.producer.PAlloc? {
      HeldTaken(s, s');
    } else if s.producer.PWrite? {
      HeldFilled(s, g, s');
    } else if s.producer.PGive? {
      HeldGiven(s, g, s');
    } else {
      HeldElse(s, s');
    }
  }

  lemma HeldTaken(s: State, s': State)
    requires Held(s) && ProducerStep(s, s') && s.producer.PAlloc?
    ensures Held(s')
  {
    if s' != s.(producer := PRewind) {
      var b :| Taken(s, b, s') && s'.producer == PValue(s.producer.vs, b);
    }
  }

  lemma HeldFilled(s: State, g: Ghosts, s': State)
    requires TailOk(s, g) && Held(s) && ProducerStep(s, s') && s.producer.PWrite?
    ensures Held(s')
  {
    if s.producer.at == |s.producer.vs| { PublishedTail(s, g, s'); }
  }

  lemma HeldGiven(s: State, g: Ghosts, s': State)
    requires |g.pos| == g.k && BlocksOk(s, g) && Held(s) && ProducerStep(s, s') && s.producer.PGive?
    ensures Held(s')
  {
    if s.batch != [] { assert s.batch[0] in s.ours; }
  }

  lemma HeldElse(s: State, s': State)
    requires Held(s) && ProducerStep(s, s')
    requires !s.producer.PAlloc? && !s.producer.PWrite? && !s.producer.PGive?
    ensures Held(s')
  {}

  lemma HeldByConsumer(s: State, g: Ghosts, t: nat, s': State)
    requires Inv(s, g) && Held(s) && ConsumerStep(s, t, s')
    ensures Held(s')
  {
    if ReleaseStep(s, t, s') {
      if s.readers[t].RFree? { ReleasingSafe(s, g, t); }
      HeldReleased(s, t, s');
    } else {
      HeldReading(s, t, s');
    }
  }

  lemma HeldReleased(s: State, t: nat, s': State)
    requires Held(s) && ReleaseStep(s, t, s')
    requires s.readers[t].RFree? ==> s.readers[t].block.At? && s.readers[t].block.block in s.ours
    ensures Held(s')
  {
    if s.readers[t].RFree? {
      assert |s'.ours| == |s.ours| - 1;
    } else if s.readers[t].RNext? && s'.c != s.c {
      C.CounterFacts(s.c, t, s'.c);
    }
  }

  lemma HeldReading(s: State, t: nat, s': State)
    requires Held(s) && (CountStep(s, t, s') || LookupStep(s, t, s') || ReadStep(s, t, s'))
    ensures Held(s')
  {
    if CountStep(s, t, s') {
      C.CounterFacts(s.c, t, s'.c);
    } else if LookupStep(s, t, s') {
      LookupLeaves(s, t, s');
    }
  }

  lemma LookupLeaves(s: State, t: nat, s': State)
    requires LookupStep(s, t, s')
    ensures s' == s.(readers := s'.readers)
  {}

  /** The producer's own accesses are in range, it writes only to a block in use, and the
      entry it is about to key is not showing a block of a position still in use. */
  lemma ProducerInRange(tr: seq<State>, i: nat)
    requires Execution(tr) && Asks(tr, 1) && i < |tr|
    ensures var s := tr[i];
      && (s.producer.PKey? || Inserting(s.producer) ==> Indexed(s) && 0 <= Newest(s).tail < Newest(s).capacity)
      && (s.producer.PKey? ==>
            s.entries[NextEntry(s)].key == INVALID_BLOCK_BASE || s.entries[NextEntry(s)].value == Null)
      && (s.producer.PWrite? && s.producer.at < |s.producer.vs| ==> Writable(s, s.c.tail + s.producer.at))
      && (s.producer.PGive? && s.batch != [] ==> s.batch[0] in s.ours)
  {
    var g, cg := Reachable(tr, i);
    var s := tr[i];
    if s.producer.PKey? { KeyUsable(s, g); }
    if s.producer.PWrite? && s.producer.at < |s.producer.vs| { WriteUsable(s, g); }
  }

  /** The place of index i is in a block in use. */
  ghost predicate Writable(s: State, i: nat)
  {
    && i / BLOCK_SIZE < Positions(s.c.tail) + |s.batch|
    && var b := Target(s, i);
    && b.At? && b.block in s.ours && b.block in s.elems && |s.elems[b.block]| == BLOCK_SIZE
  }

  lemma WriteUsable(s: State, g: Ghosts)
    requires C.Safe(s.c) && |g.pos| == g.k && TailOk(s, g) && BlocksOk(s, g) && FinishedOk(s, g)
    requires s.producer.PWrite? && s.producer.at < |s.producer.vs|
    ensures Writable(s, s.c.tail + s.producer.at)
  {
    var i := s.c.tail + s.producer.at;
    HeadBelow(s);
    TargetIs(s, g, s.producer.at);
    UnpublishedIsLive(s, g, i);
    assert UsedBlock(s, g, i / BLOCK_SIZE);
  }

  /** After growing, the entry about to be used has never been used, as the source asserts. */
  lemma GrownEntryUnused(tr: seq<State>, i: nat)
    requires Execution(tr) && Asks(tr, 1) && i + 1 < |tr| && tr[i].producer.PGrow? && IndexGrown(tr[i], tr[i + 1])
    requires tr[i + 1].producer.PKey?
    ensures Indexed(tr[i + 1]) && tr[i + 1].entries[NextEntry(tr[i + 1])].key == INVALID_BLOCK_BASE
  {
    var g, cg := Reachable(tr, i);
    var g' := GrowthIs(tr[i], g, tr[i + 1]);
    GrownUnused(tr[i], g, tr[i + 1], g');
  }

  lemma GrownUnused(s: State, g: Ghosts, s': State, g': Ghosts)
    requires Growth(s, g, s', g') && s'.producer.PKey?
    ensures Indexed(s') && s'.entries[NextEntry(s')].key == INVALID_BLOCK_BASE
  {
    GrowthShape(s, g, s', g');
    GrowthNext(s, g, s', g');
    NextIsK(s', g');
    DoubledEntry(g.ix, g.k, g'.ix, g.k);
  }

  lemma KeyUsable(s: State, g: Ghosts)
    requires IndexOk(s, g) && s.headers != [] && s.producer.PKey?
    ensures Indexed(s)
    ensures s.entries[NextEntry(s)].key == INVALID_BLOCK_BASE || s.entries[NextEntry(s)].value == Null
  {
    NextIsK(s, g);
    assert SlotOk(s, g, g.k);
    if g.k - Cap(g.ix) >= Origin(g.ix) {
      EntryPeriod(g, Last(g.ix), g.k - Cap(g.ix));
      assert EntryAt(s.entries, g.ix, g.k - Cap(g.ix)).value == Null;
    }
  }
}
