/** The implicit producer of the concurrent queue. Its block index is a circle of
    pointers to entries; growing the index copies the pointers into a larger circle, so
    old and new indices share entries. A block goes back to the free list as soon as its
    last element has been taken out, in whatever order blocks complete. An enqueue of any
    number of elements first inserts all the blocks it needs, and undoes that if it cannot
    get them all. Consumers claim indices through the counters
    of module DequeueCounters. Every shared access is one step. */
module ImplicitProducer {
  import opened Blocks
  import opened Modular
  import C = DequeueCounters

  const INVALID_BLOCK_BASE := 1

  type Block = nat
  type Value = int     // opaque to the queue

  datatype Ptr = Null | At(block: Block)

  datatype Entry = Entry(key: int, value: Ptr)

  /** `index[i]` names an entry; `tail` is the slot inserted last. */
  datatype Header = Header(capacity: nat, tail: int, index: seq<nat>)

  /** `vs` are the elements being enqueued; `enqueue` is `enqueue_bulk` of one element. */
  datatype ProducerPc =
    | PIdle
    | PInsert(vs: seq<Value>)            // about to test the entry after the index tail
    | PGrow(vs: seq<Value>)              // it is taken: about to allocate a larger index
    | PKey(vs: seq<Value>)               // about to store the entry's key
    | PTail(vs: seq<Value>)              // about to advance the index tail
    | PAlloc(vs: seq<Value>)             // about to requisition a block
    | PRewind                            // no block: about to move the index tail back
    | PClear                             // and then to clear the entry's value
    | PValue(vs: seq<Value>, b: Block)   // about to store the block in the entry
    | PWrite(vs: seq<Value>, at: nat)    // about to construct element `at`, or to store tailIndex
    | PUndo(i: nat)                      // failed: about to clear the entry of new block i
    | PBack(i: nat)                      // and then to move the index tail back
    | PGive                              // about to give the new blocks back

  datatype ReaderPc =
    | RNone
    | RStart                                                       // about to load blockIndex
    | RTail(h: nat)                                                // about to load its tail
    | RKey(h: nat, q: int)                                         // about to load the tail entry's key
    | RValue(h: nat, slot: int, i: nat)                            // about to load the entry's value
    | RRead(h: nat, slot: int, block: Ptr, from: nat, at: nat)     // moving elements out
    | RCount(h: nat, slot: int, block: Ptr, from: nat, to: nat)    // about to count them as dequeued
    | RNull(h: nat, slot: int, block: Ptr, from: nat, to: nat)     // last one: about to clear the entry
    | RFree(h: nat, slot: int, block: Ptr, from: nat, to: nat)     // about to give the block back
    | RNext(h: nat, slot: int, to: nat)                            // done with this block

  datatype State = State(
    c: C.State,
    // shared memory
    headers: seq<Header>,               // every index ever published, newest last
    entries: seq<Entry>,
    elems: map<Block, seq<Value>>,
    dequeued: map<Block, nat>,          // elementsCompletelyDequeued
    ours: set<Block>,                   // blocks taken from the free list and not yet returned
    // private to the producer
    nextCapacity: nat,
    tailBlock: Ptr,
    batch: seq<Block>,                  // blocks taken for the enqueue in progress
    producer: ProducerPc,
    readers: seq<ReaderPc>,
    // history
    enqueued: seq<Value>,               // published values, by index
    read: map<nat, Value>,              // what the consumer of an index saw
    finished: set<nat>,                 // indices counted as dequeued
    freed: multiset<nat>)               // block positions whose block was returned

  // ------------------------------------------------------------------ producer steps

  predicate HeaderShape(h: Header, entries: seq<Entry>)
  {
    0 < h.capacity == |h.index| && forall i | 0 <= i < |h.index| :: h.index[i] < |entries|
  }

  /** The newest index. */
  function Newest(s: State): Header
    requires s.headers != []
  { s.headers[|s.headers| - 1] }

  /** The slot after the tail of the newest index, and the entry it names. */
  function NextSlot(s: State): int
    requires s.headers != [] && HeaderShape(Newest(s), s.entries)
  { Wrap(Newest(s).tail + 1, Newest(s).capacity) }

  function NextEntry(s: State): nat
    requires s.headers != [] && HeaderShape(Newest(s), s.entries)
  { Newest(s).index[NextSlot(s)] }

  predicate Indexed(s: State) { s.headers != [] && HeaderShape(Newest(s), s.entries) }

  function SetTail(s: State, tail: int): seq<Header>
    requires s.headers != []
  { s.headers[|s.headers| - 1 := Newest(s).(tail := tail)] }

  /** The pointers of a full circle, starting after its tail. */
  function Unrolled(h: Header): seq<nat>
    requires 0 < h.capacity == |h.index|
  { seq(h.capacity, i requires 0 <= i => h.index[Wrap(h.tail + 1 + i, h.capacity)]) }

  /** The copying loop of `new_block_index`. */
  method CopyPointers(h: Header) returns (copy: seq<nat>)
    requires 0 < h.capacity == |h.index| && 0 <= h.tail < h.capacity
    ensures copy == Unrolled(h)
  {
    copy := [];
    var pos := h.tail;
    var done := false;
    while !done
      invariant |copy| <= h.capacity && pos == Wrap(h.tail + |copy|, h.capacity)
      invariant forall j | 0 <= j < |copy| :: copy[j] == h.index[Wrap(h.tail + 1 + j, h.capacity)]
      invariant done <==> |copy| == h.capacity
      decreases h.capacity - |copy|
    {
      WrapAdd(h.tail + |copy|, 1, h.capacity);
      pos := Wrap(pos + 1, h.capacity);
      copy := copy + [h.index[pos]];
      if pos == h.tail && |copy| < h.capacity {
        WrapInjective(h.tail + |copy|, h.tail, h.capacity);
      }
      WrapAdd(h.tail + h.capacity, 0, h.capacity);
      done := pos == h.tail;
    }
  }

  /** `new_block_index`: all the old pointers, then as many fresh entries (or, for the
      first index, just fresh entries); the tail is the last old slot. Only the keys of
      fresh entries are initialised. */
  ghost predicate IndexGrown(s: State, s': State)
  {
    && var n := |s.entries|;
    && |s'.entries| == n + (if s.headers == [] then s.nextCapacity else Newest(s).capacity)
    && s'.entries[..n] == s.entries
    && (forall e | n <= e < |s'.entries| :: s'.entries[e].key == INVALID_BLOCK_BASE)
    && (s.headers != [] ==> 0 < Newest(s).capacity == |Newest(s).index|)
    && var old_ := if s.headers == [] then [] else Unrolled(Newest(s));
    && var h := Header(s.nextCapacity, if s.headers == [] then s.nextCapacity - 1 else Newest(s).capacity - 1,
                       old_ + seq(|s'.entries| - n, i => n + i));
    && s' == s.(headers := s.headers + [h], entries := s'.entries, nextCapacity := 2 * s.nextCapacity,
                producer := s'.producer)
  }

  ghost predicate Taken(s: State, b: Block, s': State)
  {
    && b !in s.ours && b in s'.elems && |s'.elems[b]| == BLOCK_SIZE
    && s' == s.(elems := s.elems[b := s'.elems[b]], dequeued := s.dequeued[b := 0], ours := s.ours + {b},
                producer := s'.producer)
  }

  /** The blocks that n more elements need beyond those already in use. */
  function Need(tail: nat, n: nat): int { Positions(tail + n) - Positions(tail) }

  /** Insert the next block, or fill them once they are all there. */
  function InsertOrFill(s: State, vs: seq<Value>, had: nat): ProducerPc
  { if had < Need(s.c.tail, |vs|) then PInsert(vs) else PWrite(vs, 0) }

  /** The block that index i of the elements being enqueued goes to. */
  function Target(s: State, i: nat): Ptr
    requires i / BLOCK_SIZE < Positions(s.c.tail) + |s.batch|
  {
    if i / BLOCK_SIZE < Positions(s.c.tail) then s.tailBlock
    else At(s.batch[i / BLOCK_SIZE - Positions(s.c.tail)])
  }

  ghost predicate ElementWritten(s: State, vs: seq<Value>, at: nat, s': State)
  {
    && var i := s.c.tail + at;
    && at < |vs| && i / BLOCK_SIZE < Positions(s.c.tail) + |s.batch|
    && var b := Target(s, i);
    && b.At? && b.block in s.elems && |s.elems[b.block]| == BLOCK_SIZE
    && s' == s.(elems := s.elems[b.block := s.elems[b.block][i % BLOCK_SIZE := vs[at]]], producer := PWrite(vs, at + 1))
  }

  /** The entry that the undo clears for new block i, looked up from the index tail. */
  function UndoSlot(s: State, i: nat): int
    requires Indexed(s) && 0 <= Newest(s).tail < Newest(s).capacity
  {
    LookupSlot(Newest(s).tail, s.entries[Newest(s).index[Newest(s).tail]].key,
               BLOCK_SIZE * (Positions(s.c.tail) + i), Newest(s).capacity)
  }

  /** A call of `enqueue_bulk` with elements vs, or of `enqueue` with one. */
  ghost predicate EnqueueCall(s: State, vs: seq<Value>, s': State)
  {
    s.producer.PIdle? && s' == s.(producer := InsertOrFill(s, vs, 0))
  }

  ghost predicate ProducerStep(s: State, s': State)
  {
    match s.producer
    case PIdle => exists vs :: EnqueueCall(s, vs, s')
    case PInsert(vs) =>
      if s.headers == [] then s' == s.(producer := PUndo(0))    // there never was an index
      else
        && Indexed(s)
        && var e := s.entries[NextEntry(s)];
        && s' == s.(producer := if e.key == INVALID_BLOCK_BASE || e.value.Null? then PKey(vs) else PGrow(vs))
    case PGrow(vs) =>
      || (IndexGrown(s, s') && s'.producer == PKey(vs))
      || s' == s.(producer := PUndo(0))                         // no memory
    case PKey(vs) =>
      && Indexed(s)
      && var e := NextEntry(s);
      && var key := BLOCK_SIZE * (Positions(s.c.tail) + |s.batch|);
      && s' == s.(entries := s.entries[e := s.entries[e].(key := key)], producer := PTail(vs))
    case PTail(vs) => Indexed(s) && s' == s.(headers := SetTail(s, NextSlot(s)), producer := PAlloc(vs))
    case PAlloc(vs) =>
      || (exists b :: Taken(s, b, s') && s'.producer == PValue(vs, b))
      || s' == s.(producer := PRewind)                          // no block
    case PRewind => Rewound(s, s') && s'.producer == PClear
    case PClear =>
      && Indexed(s)
      && var e := NextEntry(s);
      && s' == s.(entries := s.entries[e := s.entries[e].(value := Null)], producer := PUndo(0))
    case PValue(vs, b) =>
      && Indexed(s) && 0 <= Newest(s).tail < Newest(s).capacity
      && var e := Newest(s).index[Newest(s).tail];
      && s' == s.(entries := s.entries[e := s.entries[e].(value := At(b))], batch := s.batch + [b],
                  producer := InsertOrFill(s, vs, |s.batch| + 1))
    case PWrite(vs, at) =>
      if at < |vs| then
        || ElementWritten(s, vs, at, s')
        || s' == s.(producer := PUndo(0))                       // the element's constructor throws
      else
        && C.Publish(s.c, |vs|, s'.c)
        && s' == s.(c := s'.c, enqueued := s.enqueued + vs, batch := [], producer := PIdle,
                    tailBlock := if s.batch == [] then s.tailBlock else At(s.batch[|s.batch| - 1]))
    case PUndo(i) =>
      if i < |s.batch| then
        && Indexed(s) && 0 <= Newest(s).tail < Newest(s).capacity
        && var e := Newest(s).index[UndoSlot(s, i)];
        && s' == s.(entries := s.entries[e := s.entries[e].(value := Null)], producer := PBack(i))
      else s' == s.(producer := PGive)
    case PBack(i) => Rewound(s, s') && s'.producer == PUndo(i + 1)
    case PGive =>
      if s.batch != [] then s' == s.(ours := s.ours - {s.batch[0]}, batch := s.batch[1..])
      else s' == s.(producer := PIdle)
  }

  /** `rewind_block_index_tail`. */
  ghost predicate Rewound(s: State, s': State)
  {
    && Indexed(s)
    && s' == s.(headers := SetTail(s, Wrap(Newest(s).tail - 1, Newest(s).capacity)), producer := s'.producer)
  }

  // ------------------------------------------------------------------ consumer steps

  function Go(s: State, t: nat, r: ReaderPc): State
    requires t < |s.readers|
  { s.(readers := s.readers[t := r]) }

  /** A step on the counters; a thread that claims indices starts its lookup. */
  ghost predicate CountStep(s: State, t: nat, s': State)
  {
    && t < |s.readers| == |s.c.threads| && !s.c.threads[t].Reading?
    && C.ThreadStep(s.c, t, s'.c)
    && s' == Go(s, t, if s'.c.threads[t].Reading? then RStart else RNone).(c := s'.c)
  }

  ghost predicate Active(s: State, t: nat) { t < |s.readers| == |s.c.threads| && s.c.threads[t].Reading? }

  ghost predicate InIndex(s: State, h: nat, slot: int)
  {
    h < |s.headers| && HeaderShape(s.headers[h], s.entries) && 0 <= slot < s.headers[h].capacity
  }

  ghost predicate LookupStep(s: State, t: nat, s': State)
  {
    && Active(s, t)
    && match s.readers[t]
       case RStart => s.headers != [] && s' == Go(s, t, RTail(|s.headers| - 1))
       case RTail(h) => h < |s.headers| && s' == Go(s, t, RKey(h, s.headers[h].tail))
       case RKey(h, q) =>
         && InIndex(s, h, q)
         && s' == Go(s, t, RValue(h, LookupSlot(q, s.entries[s.headers[h].index[q]].key,
                                                s.c.threads[t].first, s.headers[h].capacity),
                                  s.c.threads[t].first))
       case RValue(h, slot, i) =>
         && InIndex(s, h, slot)
         && s' == Go(s, t, RRead(h, slot, s.entries[s.headers[h].index[slot]].value, i, i))
       case _ => false
  }

  ghost predicate ReadStep(s: State, t: nat, s': State)
  {
    && Active(s, t) && s.readers[t].RRead?
    && var r := s.readers[t];
    && var to := BlockEnd(r.from, C.ClaimEnd(s.c, t));
    && if r.at < to then
         && r.block.At? && r.block.block in s.elems && r.at % BLOCK_SIZE < |s.elems[r.block.block]|
         && s' == Go(s, t, r.(at := r.at + 1))
                    .(read := s.read[r.at := s.elems[r.block.block][r.at % BLOCK_SIZE]])
       else s' == Go(s, t, RCount(r.h, r.slot, r.block, r.from, to))
  }

  function Range(a: nat, b: nat): (r: set<nat>)
    ensures forall i: nat :: i in r <==> a <= i < b
    decreases b - a
  {
    if a < b then {a} + Range(a + 1, b) else {}
  }

  ghost predicate ReleaseStep(s: State, t: nat, s': State)
  {
    && Active(s, t)
    && match s.readers[t]
       case RCount(h, slot, block, from, to) =>
         && block.At? && block.block in s.dequeued && from <= to
         && var n := s.dequeued[block.block] + (to - from);
         && s' == Go(s, t, if n == BLOCK_SIZE then RNull(h, slot, block, from, to) else RNext(h, slot, to))
                    .(dequeued := s.dequeued[block.block := n], finished := s.finished + Range(from, to))
       case RNull(h, slot, block, from, to) =>
         && InIndex(s, h, slot)
         && var e := s.headers[h].index[slot];
         && s' == Go(s, t, RFree(h, slot, block, from, to))
                    .(entries := s.entries[e := s.entries[e].(value := Null)])
       case RFree(h, slot, block, from, to) =>
         && block.At?
         && s' == Go(s, t, RNext(h, slot, to))
                    .(ours := s.ours - {block.block}, freed := s.freed + multiset{from / BLOCK_SIZE})
       case RNext(h, slot, to) =>
         if to < C.ClaimEnd(s.c, t) then
           && h < |s.headers| && s.headers[h].capacity > 0
           && s' == Go(s, t, RValue(h, Wrap(slot + 1, s.headers[h].capacity), to))
         else
           && C.ThreadStep(s.c, t, s'.c)
           && s' == Go(s, t, RNone).(c := s'.c)
       case _ => false
  }

  // ------------------------------------------------------------------ executions

  ghost predicate Start(s: State)
  {
    && C.Init(s.c) && |s.readers| == |s.c.threads|
    && (forall t | 0 <= t < |s.readers| :: s.readers[t] == RNone)
    && s.headers == [] && s.entries == [] && s.elems == map[] && s.dequeued == map[] && s.ours == {}
    && s.nextCapacity > 1 && s.tailBlock == Null && s.batch == [] && s.producer == PIdle
    && s.enqueued == [] && s.read == map[] && s.finished == {} && s.freed == multiset{}
  }

  /** The constructor's own `new_block_index` may have succeeded or not. */
  ghost predicate Init(s: State)
  {
    Start(s) || exists s0 :: Start(s0) && IndexGrown(s0, s) && s.producer == PIdle
  }

  ghost predicate ConsumerStep(s: State, t: nat, s': State)
  {
    CountStep(s, t, s') || LookupStep(s, t, s') || ReadStep(s, t, s') || ReleaseStep(s, t, s')
  }

  ghost predicate Next(s: State, s': State)
  {
    ProducerStep(s, s') || exists t :: ConsumerStep(s, t, s')
  }

  ghost predicate Execution(tr: seq<State>)
  {
    && tr != [] && Init(tr[0])
    && forall i | 0 <= i < |tr| - 1 :: Next(tr[i], tr[i + 1])
  }

  /** The callers' part: every dequeue of the run asks for at least n elements. */
  ghost predicate Asks(tr: seq<State>, n: nat) { forall i | 0 <= i < |tr| :: C.Asks(tr[i].c, n) }
}
