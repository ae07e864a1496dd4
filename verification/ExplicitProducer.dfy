/** The explicit producer of the concurrent queue: one producer thread enqueues into a
    ring of 32-element blocks and publishes, in a circular block index, which block
    starts at which element index; any number of consumers claim indices through the
    counters of module DequeueCounters and look their block up in the index by a signed
    offset from its front. The index is doubled when it is full, and consumers may go on
    using an older copy. Every shared access is one step. */
module ExplicitProducer {
  import opened Blocks
  import opened Modular
  import C = DequeueCounters

  type Block = nat
  type Value = int     // opaque to the queue

  datatype Entry = Entry(base: int, block: Block)

  /** `front` is the current slot; it is -1 in an index that exposes nothing yet. */
  datatype Header = Header(size: nat, front: int, entries: seq<Entry>)

  datatype Tail = NoBlock | TailBlock(block: Block)

  /** Where the producer thread is in `enqueue(v)`. */
  datatype ProducerPc =
    | PIdle
    | PBoundary(v: Value)          // tail on a block boundary: is there a block ahead?
    | PScan(v: Value, f: nat)      // about to load empty flag f of the block ahead
    | PReset(v: Value, f: nat)     // took that block: about to clear its empty flag f
    | PIndex(v: Value)             // about to make sure the block index has room
    | PAlloc(v: Value)             // about to requisition a block
    | PBase(v: Value)              // about to store entry.base
    | PBlock(v: Value)             // about to store entry.block
    | PFront(v: Value)             // about to publish the index front
    | PWrite(v: Value)             // about to construct the element
    | PPublish(v: Value)           // about to store tailIndex

  /** Where a consumer that has claimed first .. first+count is in its lookup. */
  datatype ReaderPc =
    | RNone
    | RStart                                                  // about to load blockIndex
    | RFront(h: nat)                                          // about to load its front
    | RBase(h: nat, f: int)                                   // about to load entries[f].base
    | RBlock(h: nat, slot: int, i: nat)                       // about to load entries[slot].block
    | RRead(h: nat, slot: int, block: Block, from: nat, at: nat)   // moving elements out
    | RMark(h: nat, slot: int, block: Block, from: nat, to: nat, left: nat)  // setting empty flags

  datatype State = State(
    c: C.State,
    // shared memory
    headers: seq<Header>,                // every index ever published, newest last
    next: map<Block, Block>,
    elems: map<Block, seq<Value>>,
    empty: map<Block, seq<bool>>,
    // private to the producer
    tailBlock: Tail, slotsUsed: nat, size: nat, front: nat,
    producer: ProducerPc,
    readers: seq<ReaderPc>,
    // history
    enqueued: seq<Value>,                // published values, by index
    read: map<nat, Value>,               // what the consumer of an index saw
    finished: set<nat>)                  // indices whose empty flag has been set

  // ------------------------------------------------------------------ producer steps

  function Flags(b: bool): seq<bool> { seq(BLOCK_SIZE, _ => b) }

  /** The block behind the tail block on the ring, the one ahead of the producer. */
  ghost predicate HasAhead(s: State)
  {
    && s.tailBlock.TailBlock? && s.tailBlock.block in s.next
    && s.next[s.tailBlock.block] in s.empty && |s.empty[s.next[s.tailBlock.block]]| == BLOCK_SIZE
  }

  function Ahead(s: State): Block
    requires s.tailBlock.TailBlock? && s.tailBlock.block in s.next
  { s.next[s.tailBlock.block] }

  /** The entries of a full or partly filled circular index, oldest first. */
  function Unrolled(entries: seq<Entry>, front: nat, used: nat): seq<Entry>
    requires |entries| > 0
  {
    seq(used, i requires 0 <= i => entries[Wrap(front - used + i, |entries|)])
  }

  /** The copying loop of `new_block_index`. */
  method CopyEntries(entries: seq<Entry>, front: nat, used: nat) returns (copy: seq<Entry>)
    requires front < |entries| && used <= |entries|
    ensures copy == Unrolled(entries, front, used)
  {
    copy := [];
    if used != 0 {
      var n := |entries|;
      var i := Wrap(front - used, n);
      var done := false;
      while !done
        invariant |copy| <= used && i == Wrap(front - used + |copy|, n)
        invariant forall j | 0 <= j < |copy| :: copy[j] == entries[Wrap(front - used + j, n)]
        invariant done <==> |copy| == used
        decreases used - |copy|
      {
        WrapAdd(front - used + |copy|, 1, n);
        copy := copy + [entries[i]];
        i := Wrap(i + 1, n);
        if i == front {
          WrapInjective(front - used + |copy|, front, n);
        }
        done := i == front;
      }
    }
  }

  /** `new_block_index`: twice the size, the used entries first, and as many exposed. */
  ghost predicate IndexDoubled(s: State, s': State)
  {
    exists h: Header ::
      && h.size == 2 * s.size == |h.entries| && h.front == s.slotsUsed - 1 && s.slotsUsed <= h.size
      && (s.slotsUsed > 0 ==>
            s.headers != [] && s.headers[|s.headers| - 1].entries != [] &&
            h.entries[..s.slotsUsed] == Unrolled(s.headers[|s.headers| - 1].entries, s.front, s.slotsUsed))
      && s'.headers == s.headers + [h]
      && s' == s.(headers := s'.headers, size := h.size, front := s.slotsUsed, producer := s'.producer)
  }

  ghost predicate Linked(s: State, b: Block, s': State)
  {
    && s' == s.(next := s'.next, tailBlock := TailBlock(b), slotsUsed := s.slotsUsed + 1,
                empty := s.empty[b := Flags(false)], elems := s'.elems, producer := s'.producer)
    && (b in s'.elems && |s'.elems[b]| == BLOCK_SIZE && s'.elems == s.elems[b := s'.elems[b]])
    && (if s.tailBlock.NoBlock? then s'.next == s.next[b := b]
        else s.tailBlock.block in s.next &&
             s'.next == s.next[b := s.next[s.tailBlock.block]][s.tailBlock.block := b])
  }

  /** The block a requisition may return is not one of this producer's (module FreeList). */
  ghost predicate NotOurs(s: State, b: Block) { b !in s.next }

  /** A call of `enqueue(v)`. */
  ghost predicate EnqueueCall(s: State, v: Value, s': State)
  {
    s.producer.PIdle? && s' == s.(producer := if s.c.tail % BLOCK_SIZE == 0 then PBoundary(v) else PWrite(v))
  }

  ghost predicate ProducerStep(s: State, s': State)
  {
    match s.producer
    case PIdle => exists v :: EnqueueCall(s, v, s')
    case PBoundary(v) => s' == s.(producer := if s.tailBlock.NoBlock? then PIndex(v) else PScan(v, 0))
    case PScan(v, f) =>
      && HasAhead(s)
      && if f < BLOCK_SIZE then
           s' == s.(producer := if s.empty[Ahead(s)][f] then PScan(v, f + 1) else PIndex(v))
         else s' == s.(tailBlock := TailBlock(Ahead(s)), producer := PReset(v, 0))
    case PReset(v, f) =>
      if f < BLOCK_SIZE then
        && s.tailBlock.TailBlock? && s.tailBlock.block in s.empty && f < |s.empty[s.tailBlock.block]|
        && s' == s.(empty := s.empty[s.tailBlock.block := s.empty[s.tailBlock.block][f := false]],
                    producer := PReset(v, f + 1))
      else s' == s.(producer := PBase(v))
    case PIndex(v) =>
      if s.headers == [] || s.slotsUsed == s.size then
        || (IndexDoubled(s, s') && s'.producer == PAlloc(v))
        || s' == s.(producer := PIdle)                          // no memory: enqueue fails
      else s' == s.(producer := PAlloc(v))
    case PAlloc(v) =>
      || (exists b :: NotOurs(s, b) && Linked(s, b, s') && s'.producer == PBase(v))
      || s' == s.(producer := PIdle)                            // no block: enqueue fails
    case PBase(v) => EntryStored(s, s', true) && s'.producer == PBlock(v)
    case PBlock(v) => EntryStored(s, s', false) && s'.producer == PFront(v)
    case PFront(v) =>
      && s.headers != [] && s.size > 0
      && s' == s.(headers := s.headers[|s.headers| - 1 := s.headers[|s.headers| - 1].(front := s.front)],
                  front := Wrap(s.front + 1, s.size), producer := PWrite(v))
    case PWrite(v) =>
      && s.tailBlock.TailBlock? && s.tailBlock.block in s.elems && |s.elems[s.tailBlock.block]| == BLOCK_SIZE
      && s' == s.(elems := s.elems[s.tailBlock.block :=
                             s.elems[s.tailBlock.block][s.c.tail % BLOCK_SIZE := v]],
                  producer := PPublish(v))
    case PPublish(v) =>
      && C.Publish(s.c, 1, s'.c)
      && s' == s.(c := s'.c, enqueued := s.enqueued + [v], producer := PIdle)
  }

  /** The two stores into the entry at the producer's front. */
  ghost predicate EntryStored(s: State, s': State, base: bool)
  {
    && s.headers != [] && s.tailBlock.TailBlock?
    && var last := |s.headers| - 1;
    && var h := s.headers[last];
    && s.front < |h.entries|
    && var e := if base then h.entries[s.front].(base := s.c.tail)
                else h.entries[s.front].(block := s.tailBlock.block);
    && s' == s.(headers := s.headers[last := h.(entries := h.entries[s.front := e])], producer := s'.producer)
  }

  // ------------------------------------------------------------------ consumer steps

  function Go(s: State, t: nat, r: ReaderPc): State
    requires t < |s.readers|
  { s.(readers := s.readers[t := r]) }

  /** A step on the counters; a thread that claims indices starts its lookup. */
  ghost predicate CountStep(s: State, t: nat, s': State)
  {
    && t < |s.readers| == |s.c.threads| && !s.c.threads[t].Reading?
    && C.ThreadStep(s.c, t, s'.c)
    && s' == Go(s, t, if s'.c.threads[t].Reading? then RStart else RNone).(c := s'.c)
  }

  ghost predicate LookupStep(s: State, t: nat, s': State)
  {
    && t < |s.readers| == |s.c.threads| && s.c.threads[t].Reading?
    && match s.readers[t]
       case RStart => s.headers != [] && s' == Go(s, t, RFront(|s.headers| - 1))
       case RFront(h) => h < |s.headers| && s' == Go(s, t, RBase(h, s.headers[h].front))
       case RBase(h, f) =>
         && h < |s.headers| && 0 <= f < |s.headers[h].entries| && s.headers[h].size > 0
         && s' == Go(s, t, RBlock(h, LookupSlot(f, s.headers[h].entries[f].base, s.c.threads[t].first,
                                                s.headers[h].size),
                                  s.c.threads[t].first))
       case RBlock(h, slot, i) =>
         && h < |s.headers| && 0 <= slot < |s.headers[h].entries|
         && s' == Go(s, t, RRead(h, slot, s.headers[h].entries[slot].block, i, i))
       case _ => false
  }

  ghost predicate ReadStep(s: State, t: nat, s': State)
  {
    && t < |s.readers| == |s.c.threads| && s.c.threads[t].Reading? && s.readers[t].RRead?
    && var r := s.readers[t];
    && var to := BlockEnd(r.from, C.ClaimEnd(s.c, t));
    && if r.at < to then
         && r.block in s.elems && r.at % BLOCK_SIZE < |s.elems[r.block]|
         && s' == Go(s, t, r.(at := r.at + 1)).(read := s.read[r.at := s.elems[r.block][r.at % BLOCK_SIZE]])
       else
         && r.from <= to
         && s' == Go(s, t, RMark(r.h, r.slot, r.block, r.from, to, to - r.from))
  }

  /** One flag of `set_many_empty`, from the highest index of the range down; after the
      last one, the next block of the claim or the end of the dequeue. */
  ghost predicate MarkStep(s: State, t: nat, s': State)
  {
    && t < |s.readers| == |s.c.threads| && s.c.threads[t].Reading? && s.readers[t].RMark?
    && var r := s.readers[t];
    && if r.left > 0 then
         && var i := r.from + r.left - 1;
         && var f := BLOCK_SIZE - 1 - i % BLOCK_SIZE;
         && r.block in s.empty && f < |s.empty[r.block]|
         && s' == Go(s, t, r.(left := r.left - 1))
                    .(empty := s.empty[r.block := s.empty[r.block][f := true]], finished := s.finished + {i})
       else if r.to < C.ClaimEnd(s.c, t) then
         && r.h < |s.headers| && s.headers[r.h].size > 0
         && s' == Go(s, t, RBlock(r.h, Wrap(r.slot + 1, s.headers[r.h].size), r.to))
       else
         && C.ThreadStep(s.c, t, s'.c)
         && s' == Go(s, t, RNone).(c := s'.c)
  }

  // ------------------------------------------------------------------ executions

  ghost predicate Start(s: State)
  {
    && C.Init(s.c) && |s.readers| == |s.c.threads|
    && (forall t | 0 <= t < |s.readers| :: s.readers[t] == RNone)
    && s.headers == [] && s.next == map[] && s.elems == map[] && s.empty == map[]
    && s.tailBlock == NoBlock && s.slotsUsed == 0 && s.size > 0 && s.front == 0 && s.producer == PIdle
    && s.enqueued == [] && s.read == map[] && s.finished == {}
  }

  /** The constructor's own `new_block_index(0)` may have succeeded or not. */
  ghost predicate Init(s: State)
  {
    Start(s) || exists s0 :: Start(s0) && IndexDoubled(s0, s) && s.producer == PIdle
  }

  ghost predicate ConsumerStep(s: State, t: nat, s': State)
  {
    CountStep(s, t, s') || LookupStep(s, t, s') || ReadStep(s, t, s') || MarkStep(s, t, s')
  }

  ghost predicate Next(s: State, s': State)
  {
    ProducerStep(s, s') || exists t :: ConsumerStep(s, t, s')
  }

  ghost predicate Execution(tr: seq<State>)
  {
    && tr != [] && Init(tr[0])
    && forall i | 0 <= i < |tr| - 1 :: Next(tr[i], tr[i + 1])
  }
}
