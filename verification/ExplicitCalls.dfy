/** What the calls on an explicit producer amount to: an enqueue publishes the caller's value
    or fails for want of memory, and ends; the block ahead is taken into use again exactly
    when all its elements are finished; and a dequeue that has claimed indices is done after
    a bounded number of steps of its own, whatever the other threads do. */
module ExplicitCalls {
  import opened Blocks
  import opened Modular
  import opened ExplicitProducer
  import opened P = ExplicitProducerProof
  import C = DequeueCounters

  // ------------------------------------------------------------------ what an enqueue publishes

  /** The step on which an enqueue finds no memory for a larger index, or no block. */
  ghost predicate NoMemory(s: State, s': State)
  {
    && s' == s.(producer := PIdle)
    && (s.producer.PAlloc? || (s.producer.PIndex? && (s.headers == [] || s.slotsUsed == s.size)))
  }

  /** What any step does to an enqueue in progress and to what has been published. */
  ghost predicate Carries(s: State, s': State)
  {
    if s.producer.PIdle? then s'.enqueued == s.enqueued
    else if !s'.producer.PIdle? then s'.producer.v == s.producer.v && s'.enqueued == s.enqueued
    else s'.enqueued == s.enqueued + [s.producer.v] || (s'.enqueued == s.enqueued && NoMemory(s, s'))
  }

  lemma ProducerCarries(s: State, s': State)
    requires ProducerStep(s, s')
    ensures Carries(s, s')
  {
    if s.producer.PAlloc? && s' != s.(producer := PIdle) {
      var b :| NotOurs(s, b) && Linked(s, b, s') && s'.producer == PBase(s.producer.v);
    }
  }

  lemma ConsumerCarries(s: State, t: nat, s': State)
    requires ConsumerStep(s, t, s')
    ensures s'.producer == s.producer && s'.enqueued == s.enqueued
  {
    if LookupStep(s, t, s') {
      LookupMoves(s, t, s');
    } else if ReadStep(s, t, s') {
      ReadCarries(s, t, s');
    } else if MarkStep(s, t, s') {
      MarkCarries(s, t, s');
    }
  }

  lemma LookupMoves(s: State, t: nat, s': State)
    requires LookupStep(s, t, s')
    ensures s' == Go(s, t, s'.readers[t])
  {}

  lemma ReadCarries(s: State, t: nat, s': State)
    requires ReadStep(s, t, s')
    ensures s' == s.(readers := s.readers[t := s'.readers[t]], read := s'.read)
  {}

  lemma MarkCarries(s: State, t: nat, s': State)
    requires MarkStep(s, t, s')
    ensures |s'.readers| == |s.readers| && s'.readers == s.readers[t := s'.readers[t]]
    ensures s' == s.(c := s'.c, readers := s'.readers, empty := s'.empty, finished := s'.finished)
    ensures s'.c == s.c || C.ThreadStep(s.c, t, s'.c)
  {}

  lemma NextCarries(s: State, s': State)
    requires Next(s, s')
    ensures Carries(s, s')
  {
    if ProducerStep(s, s') {
      ProducerCarries(s, s');
    } else {
      var t: nat :| ConsumerStep(s, t, s');
      ConsumerCarries(s, t, s');
    }
  }

  lemma {:induction false} ValueKept(tr: seq<State>, j: nat, i: nat, v: Value)
    requires j < i < |tr| && !tr[j + 1].producer.PIdle? && tr[j + 1].producer.v == v
    requires tr[j + 1].enqueued == tr[j].enqueued
    requires forall k | j < k < i :: Carries(tr[k], tr[k + 1])
    requires forall k | j < k <= i :: !tr[k].producer.PIdle?
    ensures !tr[i].producer.PIdle? && tr[i].producer.v == v && tr[i].enqueued == tr[j].enqueued
  {
    if i > j + 1 {
      ValueKept(tr, j, i - 1, v);
      assert Carries(tr[i - 1], tr[i]);
    }
  }

  lemma AllCarry(tr: seq<State>)
    requires Execution(tr)
    ensures forall k | 0 <= k < |tr| - 1 :: Carries(tr[k], tr[k + 1])
  {
    forall k | 0 <= k < |tr| - 1 ensures Carries(tr[k], tr[k + 1]) {
      assert Next(tr[k], tr[k + 1]);
      NextCarries(tr[k], tr[k + 1]);
    }
  }

  /** An enqueue that began at j and is back at i has published exactly the caller's value,
      or has published nothing because on its last step there was no memory. */
  lemma EnqueuePublishes(tr: seq<State>, j: nat, i: nat, v: Value)
    requires Execution(tr) && j + 1 < i < |tr| && EnqueueCall(tr[j], v, tr[j + 1])
    requires (forall k | j < k < i :: !tr[k].producer.PIdle?) && tr[i].producer.PIdle?
    ensures tr[i].enqueued == tr[j].enqueued + [v] || (tr[i].enqueued == tr[j].enqueued && NoMemory(tr[i - 1], tr[i]))
  {
    AllCarry(tr);
    ValueKept(tr, j, i - 1, v);
    assert Carries(tr[i - 1], tr[i]);
  }

  /** Between calls nothing is published. */
  lemma OnlyEnqueuePublishes(tr: seq<State>, i: nat)
    requires Execution(tr) && i + 1 < |tr| && tr[i].producer.PIdle?
    ensures tr[i + 1].enqueued == tr[i].enqueued
  {
    AllCarry(tr);
    assert Carries(tr[i], tr[i + 1]);
  }

  // ------------------------------------------------------------------ an enqueue ends

  /** Steps an enqueue may still take. */
  function Work(pc: ProducerPc): int
  {
    match pc
    case PIdle => 0
    case PBoundary(_) => 2 * BLOCK_SIZE + 12
    case PScan(_, f) => 2 * BLOCK_SIZE + 11 - f
    case PReset(_, f) => BLOCK_SIZE + 10 - f
    case PIndex(_) => BLOCK_SIZE + 10
    case PAlloc(_) => BLOCK_SIZE + 9
    case PBase(_) => 9
    case PBlock(_) => 8
    case PFront(_) => 7
    case PWrite(_) => 6
    case PPublish(_) => 5
  }

  lemma WorkDecreases(s: State, g: Ghosts, s': State)
    requires TailOk(s, g) && ProducerStep(s, s') && !s.producer.PIdle?
    ensures 0 <= Work(s'.producer) < Work(s.producer)
  {
    if s.producer.PAlloc? && s' != s.(producer := PIdle) {
      var b :| NotOurs(s, b) && Linked(s, b, s') && s'.producer == PBase(s.producer.v);
    }
  }

  /** Every step of an enqueue brings its end nearer. */
  lemma EnqueueEnds(tr: seq<State>, i: nat)
    requires Execution(tr) && i + 1 < |tr| && ProducerStep(tr[i], tr[i + 1]) && !tr[i].producer.PIdle?
    ensures 0 <= Work(tr[i + 1].producer) < Work(tr[i].producer) <= 2 * BLOCK_SIZE + 12
  {
    var g, _ := Reachable(tr, i);
    WorkDecreases(tr[i], g, tr[i + 1]);
    assert TailOk(tr[i], g);
  }

  /** And while there is a block to be had, an enqueue can always go on, without failing. */
  lemma EnqueueGoesOn(tr: seq<State>, i: nat, b: Block) returns (s': State)
    requires Execution(tr) && i < |tr| && !tr[i].producer.PIdle? && NotOurs(tr[i], b)
    ensures ProducerStep(tr[i], s') && !NoMemory(tr[i], s')
  {
    var g, _ := Reachable(tr, i);
    s' := StepOf(tr[i], g, b);
  }

  lemma StepOf(s: State, g: Ghosts, b: Block) returns (s': State)
    requires Inv(s, g) && !s.producer.PIdle? && NotOurs(s, b)
    ensures ProducerStep(s, s') && !NoMemory(s, s')
  {
    if g.ring != [] { assert BlockMem(s, g.ring[|g.ring| - 1]) && BlockMem(s, g.ring[0]); }
    match s.producer
    case PBoundary(v) => s' := s.(producer := if s.tailBlock.NoBlock? then PIndex(v) else PScan(v, 0));
    case PScan(v, f) =>
      s' := if f < BLOCK_SIZE then s.(producer := if s.empty[Ahead(s)][f] then PScan(v, f + 1) else PIndex(v))
            else s.(tailBlock := TailBlock(Ahead(s)), producer := PReset(v, 0));
    case PReset(v, f) =>
      s' := if f < BLOCK_SIZE then
              s.(empty := s.empty[s.tailBlock.block := s.empty[s.tailBlock.block][f := false]],
                 producer := PReset(v, f + 1))
            else s.(producer := PBase(v));
    case PIndex(v) =>
      if s.headers == [] || s.slotsUsed == s.size { s' := Doubles(s, g, v); } else { s' := s.(producer := PAlloc(v)); }
    case PAlloc(v) => s' := Links(s, g, b, v);
    case PBase(v) => s' := Stores(s, g, true, PBlock(v));
    case PBlock(v) => s' := Stores(s, g, false, PFront(v));
    case PFront(v) =>
      s' := s.(headers := s.headers[|s.headers| - 1 := s.headers[|s.headers| - 1].(front := s.front)],
               front := Wrap(s.front + 1, s.size), producer := PWrite(v));
    case PWrite(v) =>
      s' := s.(elems := s.elems[s.tailBlock.block := s.elems[s.tailBlock.block][s.c.tail % BLOCK_SIZE := v]],
               producer := PPublish(v));
    case PPublish(v) =>
      s' := s.(c := s.c.(tail := s.c.tail + 1), enqueued := s.enqueued + [v], producer := PIdle);
      assert C.Publish(s.c, 1, s'.c);
  }

  lemma Doubles(s: State, g: Ghosts, v: Value) returns (s': State)
    requires RingOk(s, g) && IndexOk(s, g) && s.producer == PIndex(v)
    ensures IndexDoubled(s, s') && s'.producer == PAlloc(v)
  {
    var used := if s.slotsUsed == 0 then [] else Unrolled(s.headers[|s.headers| - 1].entries, s.front, s.slotsUsed);
    var h := Header(2 * s.size, s.slotsUsed - 1, used + seq(2 * s.size - |used|, _ => Entry(0, 0)));
    s' := s.(headers := s.headers + [h], size := h.size, front := s.slotsUsed, producer := PAlloc(v));
    assert h.entries[..s.slotsUsed] == used;
  }

  lemma Links(s: State, g: Ghosts, b: Block, v: Value) returns (s': State)
    requires RingOk(s, g) && s.producer == PAlloc(v) && NotOurs(s, b)
    ensures ProducerStep(s, s') && s'.producer == PBase(v)
  {
    if g.ring != [] { assert BlockMem(s, g.ring[|g.ring| - 1]); }
    var next := if s.tailBlock.NoBlock? then s.next[b := b]
                else s.next[b := s.next[s.tailBlock.block]][s.tailBlock.block := b];
    s' := s.(next := next, tailBlock := TailBlock(b), slotsUsed := s.slotsUsed + 1, empty := s.empty[b := Flags(false)],
             elems := s.elems[b := seq(BLOCK_SIZE, _ => 0)], producer := PBase(v));
    assert Linked(s, b, s');
  }

  lemma Stores(s: State, g: Ghosts, base: bool, pc: ProducerPc) returns (s': State)
    requires RingOk(s, g) && TailOk(s, g) && IndexOk(s, g) && (s.producer.PBase? || s.producer.PBlock?)
    ensures EntryStored(s, s', base) && s'.producer == pc
  {
    var last := |s.headers| - 1;
    var h := s.headers[last];
    var e := if base then h.entries[s.front].(base := s.c.tail) else h.entries[s.front].(block := s.tailBlock.block);
    s' := s.(headers := s.headers[last := h.(entries := h.entries[s.front := e])], producer := pc);
  }

  // ------------------------------------------------------------------ when a block is reused

  /** On a block boundary the producer of a ring scans the block ahead, and the scan goes on
      at flag f exactly when the element that flag stands for is finished; so the block is
      taken into use again if and only if all its elements are. */
  lemma ScanExact(tr: seq<State>, i: nat, p: nat)
    requires Execution(tr) && i + 1 < |tr| && ProducerStep(tr[i], tr[i + 1])
    requires p == tr[i].c.tail / BLOCK_SIZE - tr[i].slotsUsed
    ensures tr[i].producer.PBoundary? && tr[i].slotsUsed > 0 ==> tr[i + 1].producer == PScan(tr[i].producer.v, 0)
    ensures tr[i].producer.PScan? && tr[i].producer.f < BLOCK_SIZE ==>
      var v, f := tr[i].producer.v, tr[i].producer.f;
      if BLOCK_SIZE * p + (BLOCK_SIZE - 1 - f) in tr[i].finished then tr[i + 1].producer == PScan(v, f + 1)
      else tr[i + 1].producer.PIndex?
    ensures tr[i].producer.PScan? && tr[i].producer.f == BLOCK_SIZE ==>
      tr[i + 1].producer.PReset? && tr[i + 1].slotsUsed == tr[i].slotsUsed
  {
    var g, _ := Reachable(tr, i);
    var s := tr[i];
    if s.producer.PScan? && s.producer.f < BLOCK_SIZE {
      assert BlockMem(s, g.ring[0]) && BlockMem(s, g.ring[|g.ring| - 1]);
      assert FlagOk(s, g, 0, s.producer.f);
      assert At(g, 0, BLOCK_SIZE - 1 - s.producer.f) == BLOCK_SIZE * p + (BLOCK_SIZE - 1 - s.producer.f);
    }
  }

  // ------------------------------------------------------------------ a dequeue ends

  /** Steps a consumer at r, with a claim of n indices from first on, may still take. */
  function StepsLeft(r: ReaderPc, first: nat, n: nat): int
  {
    var end := first + n;
    match r
    case RNone => 0
    case RStart => 6 * n + 9
    case RFront(_) => 6 * n + 8
    case RBase(_, _) => 6 * n + 7
    case RBlock(_, _, i) => 6 * (end - i) + (if n == 0 then 6 else 0)
    case RRead(_, _, _, from, at) =>
      var to := BlockEnd(from, end);
      (to - at) + (to - from) + 6 * (end - to) + 2
    case RMark(_, _, _, _, to, left) => left + 6 * (end - to) + 1
  }

  function Left(s: State, t: nat): int
    requires t < |s.readers| == |s.c.threads| && s.c.threads[t].Reading?
  { StepsLeft(s.readers[t], s.c.threads[t].first, s.c.threads[t].count) }

  ghost predicate Bounded(s: State, t: nat, s': State)
    requires t < |s.readers| == |s.c.threads| && s.c.threads[t].Reading?
  {
    && t < |s'.readers| == |s'.c.threads|
    && (s'.c.threads[t].Reading? ==> 0 <= Left(s', t) < Left(s, t))
  }

  lemma LookupBounded(s: State, g: Ghosts, t: nat, s': State)
    requires t < |s.readers| == |s.c.threads| && ReaderOk(s, g, t) && LookupStep(s, t, s')
    ensures Bounded(s, t, s')
  {
    LookupMoves(s, t, s');
    LookupNearer(s, t, s');
    if s.c.threads[t].count > 0 && s.readers[t].RBlock? { assert s.readers[t].i < C.ClaimEnd(s.c, t); }
  }

  /** Each lookup step leads to the next place. */
  lemma LookupNearer(s: State, t: nat, s': State)
    requires LookupStep(s, t, s')
    ensures match s.readers[t]
            case RStart => s'.readers[t].RFront?
            case RFront(_) => s'.readers[t].RBase?
            case RBase(_, _) => s'.readers[t].RBlock? && s'.readers[t].i == s.c.threads[t].first
            case RBlock(_, _, i) => s'.readers[t].RRead? && s'.readers[t].from == s'.readers[t].at == i
            case _ => false
  {}

  lemma ReadBounded(s: State, g: Ghosts, t: nat, s': State)
    requires t < |s.readers| == |s.c.threads| && ReaderOk(s, g, t) && ReadStep(s, t, s')
    ensures Bounded(s, t, s')
  {}

  lemma MarkBounded(s: State, g: Ghosts, t: nat, s': State)
    requires t < |s.readers| == |s.c.threads| && ReaderOk(s, g, t) && MarkStep(s, t, s')
    ensures Bounded(s, t, s')
  {
    if s.readers[t].left == 0 && s.readers[t].to >= C.ClaimEnd(s.c, t) { C.ReadingEnds(s.c, t, s'.c); }
  }

  /** A consumer that has claimed indices is done after at most six steps for each of them
      and nine more; none of these steps waits for anybody. */
  lemma DequeueBounded(tr: seq<State>, i: nat, t: nat)
    requires Execution(tr) && i < |tr| && t < |tr[i].readers| == |tr[i].c.threads| && tr[i].c.threads[t].Reading?
    ensures 0 <= Left(tr[i], t) <= 6 * tr[i].c.threads[t].count + 9
    ensures exists s' :: ConsumerStep(tr[i], t, s')
  {
    var g, _ := Reachable(tr, i);
    var s := tr[i];
    assert ReaderOk(s, g, t);
    LeftIs(s, g, t);
    var s1 := ReaderStep(s, g, t);
  }

  /** Each of them brings the end nearer. */
  lemma DequeueNearer(tr: seq<State>, i: nat, t: nat)
    requires Execution(tr) && i + 1 < |tr| && t < |tr[i].readers| == |tr[i].c.threads|
    requires tr[i].c.threads[t].Reading? && ConsumerStep(tr[i], t, tr[i + 1])
    ensures Bounded(tr[i], t, tr[i + 1])
  {
    var g, _ := Reachable(tr, i);
    assert ReaderOk(tr[i], g, t);
    StepBounded(tr[i], g, t, tr[i + 1]);
  }

  lemma StepBounded(s: State, g: Ghosts, t: nat, s': State)
    requires t < |s.readers| == |s.c.threads| && s.c.threads[t].Reading? && ReaderOk(s, g, t) && ConsumerStep(s, t, s')
    ensures Bounded(s, t, s')
  {
    if LookupStep(s, t, s') {
      LookupBounded(s, g, t, s');
    } else if ReadStep(s, t, s') {
      ReadBounded(s, g, t, s');
    } else {
      MarkBounded(s, g, t, s');
    }
  }

  lemma LeftIs(s: State, g: Ghosts, t: nat)
    requires t < |s.readers| == |s.c.threads| && s.c.threads[t].Reading? && ReaderOk(s, g, t)
    ensures 0 <= Left(s, t) <= 6 * s.c.threads[t].count + 9
  {}

  lemma ReaderStep(s: State, g: Ghosts, t: nat) returns (s': State)
    requires Inv(s, g) && t < |s.readers| && s.c.threads[t].Reading?
    ensures ConsumerStep(s, t, s')
  {
    assert ReaderOk(s, g, t);
    ReaderIsSafe(s, g, t);
    match s.readers[t]
    case RStart => s' := Go(s, t, RFront(|s.headers| - 1));
    case RFront(h) => s' := Go(s, t, RBase(h, s.headers[h].front));
    case RBase(h, f) =>
      s' := Go(s, t, RBlock(h, LookupSlot(f, s.headers[h].entries[f].base, s.c.threads[t].first, s.headers[h].size),
                            s.c.threads[t].first));
    case RBlock(h, slot, i) => s' := Go(s, t, RRead(h, slot, s.headers[h].entries[slot].block, i, i));
    case RRead(h, slot, block, from, at) =>
      var to := BlockEnd(from, C.ClaimEnd(s.c, t));
      s' := if at < to then
              Go(s, t, s.readers[t].(at := at + 1)).(read := s.read[at := s.elems[block][at % BLOCK_SIZE]])
            else Go(s, t, RMark(h, slot, block, from, to, to - from));
      assert ReadStep(s, t, s');
    case RMark(h, slot, block, from, to, left) => s' := MarkOf(s, g, t);
  }

  lemma MarkOf(s: State, g: Ghosts, t: nat) returns (s': State)
    requires Inv(s, g) && t < |s.readers| && s.c.threads[t].Reading? && s.readers[t].RMark?
    ensures MarkStep(s, t, s')
  {
    assert ReaderOk(s, g, t);
    ReaderIsSafe(s, g, t);
    var r := s.readers[t];
    if r.left > 0 {
      var i := r.from + r.left - 1;
      var f := BLOCK_SIZE - 1 - i % BLOCK_SIZE;
      s' := Go(s, t, r.(left := r.left - 1))
              .(empty := s.empty[r.block := s.empty[r.block][f := true]], finished := s.finished + {i});
    } else if r.to < C.ClaimEnd(s.c, t) {
      s' := Go(s, t, RBlock(r.h, Wrap(r.slot + 1, s.headers[r.h].size), r.to));
    } else {
      var c' := C.CanStep(s.c, t);
      s' := Go(s, t, RNone).(c := c');
    }
  }

  /** Another thread's steps do not touch a consumer's claim or its place in it. */
  lemma OthersLeave(s: State, t: nat, u: nat, s': State)
    requires ConsumerStep(s, u, s') && t < |s.readers| == |s.c.threads| && t != u
    ensures t < |s'.readers| == |s'.c.threads| && s'.readers[t] == s.readers[t] && s'.c.threads[t] == s.c.threads[t]
  {
    if LookupStep(s, u, s') {
      LookupMoves(s, u, s');
    } else if ReadStep(s, u, s') {
      ReadCarries(s, u, s');
    } else {
      if MarkStep(s, u, s') { MarkCarries(s, u, s'); }
      if s'.c != s.c { C.CounterFacts(s.c, u, s'.c); }
    }
  }
}
