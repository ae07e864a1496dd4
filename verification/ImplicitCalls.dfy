/** What the calls on an implicit producer amount to: an enqueue publishes the caller's
    elements, all of them and in order, or none for a reason, and ends; and a dequeue that
    has claimed indices is done after a bounded number of steps of its own, whatever the
    other threads do. */
module ImplicitCalls {
  import opened Blocks
  import opened Modular
  import opened ImplicitProducer
  import opened P = ImplicitProducerProof
  import opened Q = ImplicitProducerSteps
  import opened R = ImplicitProducerRuns
  import C = DequeueCounters

  // ------------------------------------------------------------------ what an enqueue publishes

  /** The producer still has the caller's elements; otherwise it is undoing a failed call. */
  predicate Going(pc: ProducerPc)
  {
    || pc.PInsert? || pc.PGrow? || pc.PKey? || pc.PTail? || pc.PAlloc? || pc.PValue? || pc.PWrite?
  }

  /** The step on which an enqueue fails: there never was an index, there is no memory for a
      larger one, there is no block, or the constructor of an element throws. */
  ghost predicate Refused(s: State, s': State)
  {
    || (s.producer.PInsert? && s.headers == [] && s'.producer == PUndo(0))
    || (s.producer.PGrow? && s'.producer == PUndo(0))
    || (s.producer.PAlloc? && s'.producer == PRewind)
    || (s.producer.PWrite? && s.producer.at < |s.producer.vs| && s'.producer == PUndo(0))
  }

  /** What any step does to an enqueue in progress and to what has been published. */
  ghost predicate Carries(s: State, s': State)
  {
    if !Going(s.producer) then s'.enqueued == s.enqueued && (!s.producer.PIdle? ==> !Going(s'.producer))
    else if Going(s'.producer) then s'.producer.vs == s.producer.vs && s'.enqueued == s.enqueued
    else if s'.producer.PIdle? then s'.enqueued == s.enqueued + s.producer.vs
    else s'.enqueued == s.enqueued && Refused(s, s')
  }

  lemma ProducerCarries(s: State, s': State)
    requires ProducerStep(s, s')
    ensures Carries(s, s')
  {
    if s.producer.PIdle? {
      var vs :| EnqueueCall(s, vs, s');
    } else if s.producer.PAlloc? {
      AllocCarries(s, s');
    } else {
      OtherCarries(s, s');
    }
  }

  lemma AllocCarries(s: State, s': State)
    requires ProducerStep(s, s') && s.producer.PAlloc?
    ensures Carries(s, s')
  {
    if s' != s.(producer := PRewind) {
      var b :| Taken(s, b, s') && s'.producer == PValue(s.producer.vs, b);
    }
  }

  lemma OtherCarries(s: State, s': State)
    requires ProducerStep(s, s') && !s.producer.PIdle? && !s.producer.PAlloc?
    ensures Carries(s, s')
  {}

  lemma ConsumerCarries(s: State, t: nat, s': State)
    requires ConsumerStep(s, t, s')
    ensures s'.producer == s.producer && s'.enqueued == s.enqueued
  {
    if LookupStep(s, t, s') {
      LookupLeaves(s, t, s');
    } else if ReleaseStep(s, t, s') {
      ReleaseLeaves(s, t, s');
    }
  }

  lemma ReleaseLeaves(s: State, t: nat, s': State)
    requires ReleaseStep(s, t, s')
    ensures s'.producer == s.producer && s'.enqueued == s.enqueued
  {}

  lemma NextCarries(s: State, s': State)
    requires Next(s, s')
    ensures Carries(s, s')
  {
    if ProducerStep(s, s') {
      ProducerCarries(s, s');
    } else {
      var t: nat :| ConsumerStep(s, t, s');
      ConsumerCarries(s, t, s');
    }
  }

  lemma AllCarry(tr: seq<State>)
    requires Execution(tr)
    ensures forall k | 0 <= k < |tr| - 1 :: Carries(tr[k], tr[k + 1])
  {
    forall k | 0 <= k < |tr| - 1 ensures Carries(tr[k], tr[k + 1]) {
      assert Next(tr[k], tr[k + 1]);
      NextCarries(tr[k], tr[k + 1]);
    }
  }

  /** Some step from j + 1 to i was a refusal. */
  ghost predicate RefusedAt(tr: seq<State>, j: nat, i: nat)
  {
    exists k: nat :: j < k < i && RefusedStep(tr, k)
  }

  ghost predicate RefusedStep(tr: seq<State>, k: nat) { k + 1 < |tr| && Refused(tr[k], tr[k + 1]) }

  lemma {:induction false} ElementsKept(tr: seq<State>, j: nat, i: nat, vs: seq<Value>)
    requires j < i < |tr| && Going(tr[j + 1].producer) && tr[j + 1].producer.vs == vs
    requires tr[j + 1].enqueued == tr[j].enqueued
    requires forall k | j < k < i :: Carries(tr[k], tr[k + 1])
    requires forall k | j < k <= i :: !tr[k].producer.PIdle?
    ensures tr[i].enqueued == tr[j].enqueued
    ensures if Going(tr[i].producer) then tr[i].producer.vs == vs else RefusedAt(tr, j, i)
  {
    if i > j + 1 {
      ElementsKept(tr, j, i - 1, vs);
      assert Carries(tr[i - 1], tr[i]);
      RefusedMore(tr, j, i);
    }
  }

  lemma RefusedMore(tr: seq<State>, j: nat, i: nat)
    requires j + 1 < i < |tr|
    ensures RefusedAt(tr, j, i - 1) || Refused(tr[i - 1], tr[i]) ==> RefusedAt(tr, j, i)
  {
    if Refused(tr[i - 1], tr[i]) { assert RefusedStep(tr, i - 1); }
  }

  /** An enqueue that began at j and is back at i has published exactly the caller's
      elements, in order; or it has published nothing, and was refused on some step. */
  lemma EnqueuePublishes(tr: seq<State>, j: nat, i: nat, vs: seq<Value>)
    requires Execution(tr) && j + 1 < i < |tr| && EnqueueCall(tr[j], vs, tr[j + 1])
    requires (forall k | j < k < i :: !tr[k].producer.PIdle?) && tr[i].producer.PIdle?
    ensures tr[i].enqueued == tr[j].enqueued + vs || (tr[i].enqueued == tr[j].enqueued && RefusedAt(tr, j, i))
  {
    AllCarry(tr);
    ElementsKept(tr, j, i - 1, vs);
    assert Carries(tr[i - 1], tr[i]);
    if !Going(tr[i - 1].producer) { RefusedMore(tr, j, i); }
  }

  /** Between calls nothing is published. */
  lemma OnlyEnqueuePublishes(tr: seq<State>, i: nat)
    requires Execution(tr) && i + 1 < |tr| && tr[i].producer.PIdle?
    ensures tr[i + 1].enqueued == tr[i].enqueued
  {
    AllCarry(tr);
    assert Carries(tr[i], tr[i + 1]);
  }

  // ------------------------------------------------------------------ an enqueue ends

  /** Steps an enqueue may still take: blocks to insert, elements to write, or what is left
      of an undo. */
  function Work(s: State): int
  {
    var b := |s.batch|;
    match s.producer
    case PIdle => 0
    case PInsert(vs) => Inserts(s, vs)
    case PGrow(vs) => Inserts(s, vs) - 1
    case PKey(vs) => Inserts(s, vs) - 2
    case PTail(vs) => Inserts(s, vs) - 3
    case PAlloc(vs) => Inserts(s, vs) - 4
    case PValue(vs, _) => Inserts(s, vs) - 5
    case PWrite(vs, at) => |vs| - at + 3 * Need(s.c.tail, |vs|) + 5
    case PRewind => 3 * b + 4
    case PClear => 3 * b + 3
    case PUndo(i) => 2 * (b - i) + b + 2
    case PBack(i) => 2 * (b - i) + b + 1
    case PGive => b + 1
  }

  function Inserts(s: State, vs: seq<Value>): int
  {
    8 * (Need(s.c.tail, |vs|) - |s.batch|) + |vs| + 3 * Need(s.c.tail, |vs|) + 6
  }

  lemma WorkDecreases(s: State, g: Ghosts, s': State)
    requires TailOk(s, g) && ProducerStep(s, s') && !s.producer.PIdle?
    ensures 0 <= Work(s') < Work(s)
  {
    if s.producer.PAlloc? {
      AllocWork(s, s');
    } else if s.producer.PValue? || s.producer.PWrite? {
      FillWork(s, s');
    } else if Going(s.producer) {
      InsertWork(s, s');
    } else {
      UndoWork(s, s');
    }
  }

  lemma AllocWork(s: State, s': State)
    requires PlaceOk(s) && ProducerStep(s, s') && s.producer.PAlloc?
    ensures 0 <= Work(s') < Work(s)
  {
    if s' != s.(producer := PRewind) {
      var b :| Taken(s, b, s') && s'.producer == PValue(s.producer.vs, b);
    }
  }

  lemma FillWork(s: State, s': State)
    requires PlaceOk(s) && ProducerStep(s, s') && (s.producer.PValue? || s.producer.PWrite?)
    ensures 0 <= Work(s') < Work(s)
  {}

  lemma InsertWork(s: State, s': State)
    requires PlaceOk(s) && ProducerStep(s, s')
    requires s.producer.PInsert? || s.producer.PGrow? || s.producer.PKey? || s.producer.PTail?
    ensures 0 <= Work(s') < Work(s)
  {}

  lemma UndoWork(s: State, s': State)
    requires PlaceOk(s) && ProducerStep(s, s') && !Going(s.producer) && !s.producer.PIdle?
    ensures 0 <= Work(s') < Work(s)
  {}

  /** Every step of an enqueue, or of its undo, brings its end nearer. */
  lemma EnqueueEnds(tr: seq<State>, i: nat)
    requires Execution(tr) && Asks(tr, 1) && i + 1 < |tr| && ProducerStep(tr[i], tr[i + 1])
    requires !tr[i].producer.PIdle?
    ensures 0 <= Work(tr[i + 1]) < Work(tr[i])
  {
    var g, _ := Reachable(tr, i);
    WorkDecreases(tr[i], g, tr[i + 1]);
  }

  /** And while there is a block to be had, an enqueue can always go on, without failing. */
  lemma EnqueueGoesOn(tr: seq<State>, i: nat, b: Block) returns (s': State)
    requires Execution(tr) && Asks(tr, 1) && i < |tr| && !tr[i].producer.PIdle? && b !in tr[i].ours
    ensures ProducerStep(tr[i], s') && (!(tr[i].producer.PInsert? && tr[i].headers == []) ==> !Refused(tr[i], s'))
  {
    var g, _ := Reachable(tr, i);
    if Going(tr[i].producer) {
      s' := GoingStep(tr[i], g, b);
    } else {
      s' := UndoingStep(tr[i], g);
    }
  }

  lemma GoingStep(s: State, g: Ghosts, b: Block) returns (s': State)
    requires Inv(s, g) && Going(s.producer) && b !in s.ours
    ensures ProducerStep(s, s') && (!(s.producer.PInsert? && s.headers == []) ==> !Refused(s, s'))
  {
    if s.headers != [] { IsIndexed(s, g); }
    match s.producer
    case PInsert(vs) =>
      if s.headers == [] {
        s' := s.(producer := PUndo(0));
      } else {
        var e := s.entries[NextEntry(s)];
        s' := s.(producer := if e.key == INVALID_BLOCK_BASE || e.value.Null? then PKey(vs) else PGrow(vs));
      }
    case PGrow(vs) => s' := Grows(s, g, vs);
    case PKey(vs) =>
      var e := NextEntry(s);
      s' := s.(entries := s.entries[e := s.entries[e].(key := BLOCK_SIZE * (Positions(s.c.tail) + |s.batch|))],
               producer := PTail(vs));
    case PTail(vs) => s' := s.(headers := SetTail(s, NextSlot(s)), producer := PAlloc(vs));
    case PAlloc(vs) =>
      s' := s.(elems := s.elems[b := seq(BLOCK_SIZE, _ => 0)], dequeued := s.dequeued[b := 0], ours := s.ours + {b},
               producer := PValue(vs, b));
      assert Taken(s, b, s');
    case PValue(vs, block) =>
      var e := Newest(s).index[Newest(s).tail];
      s' := s.(entries := s.entries[e := s.entries[e].(value := At(block))], batch := s.batch + [block],
               producer := InsertOrFill(s, vs, |s.batch| + 1));
    case PWrite(vs, at) => s' := Fills(s, g, vs, at);
  }

  lemma IsIndexed(s: State, g: Ghosts)
    requires ShapeOk(s, g) && s.headers != []
    ensures Indexed(s) && 0 <= Newest(s).tail < Newest(s).capacity
  {}

  lemma Grows(s: State, g: Ghosts, vs: seq<Value>) returns (s': State)
    requires ShapeOk(s, g) && s.headers != [] && s.producer == PGrow(vs)
    ensures ProducerStep(s, s') && s'.producer == PKey(vs)
  {
    IsIndexed(s, g);
    var n, c := |s.entries|, Newest(s).capacity;
    var entries := s.entries + seq(c, _ => Entry(INVALID_BLOCK_BASE, Null));
    var h := Header(s.nextCapacity, c - 1, Unrolled(Newest(s)) + seq(|entries| - n, i => n + i));
    s' := s.(headers := s.headers + [h], entries := entries, nextCapacity := 2 * s.nextCapacity, producer := PKey(vs));
    assert entries[..n] == s.entries;
    assert IndexGrown(s, s');
  }

  lemma Fills(s: State, g: Ghosts, vs: seq<Value>, at: nat) returns (s': State)
    requires Inv(s, g) && s.producer == PWrite(vs, at)
    ensures ProducerStep(s, s') && !Refused(s, s')
  {
    if at < |vs| {
      WriteUsable(s, g);
      s' := Writes(s, vs, at);
    } else {
      s' := s.(c := s.c.(tail := s.c.tail + |vs|), enqueued := s.enqueued + vs, batch := [], producer := PIdle,
               tailBlock := if s.batch == [] then s.tailBlock else At(s.batch[|s.batch| - 1]));
      assert C.Publish(s.c, |vs|, s'.c);
    }
  }

  lemma Writes(s: State, vs: seq<Value>, at: nat) returns (s': State)
    requires s.producer == PWrite(vs, at) && at < |vs| && Writable(s, s.c.tail + at)
    ensures ProducerStep(s, s') && !Refused(s, s')
  {
    var i := s.c.tail + at;
    var b := Target(s, i).block;
    s' := s.(elems := s.elems[b := s.elems[b][i % BLOCK_SIZE := vs[at]]], producer := PWrite(vs, at + 1));
    assert ElementWritten(s, vs, at, s');
  }

  lemma UndoingStep(s: State, g: Ghosts) returns (s': State)
    requires Inv(s, g) && !Going(s.producer) && !s.producer.PIdle?
    ensures ProducerStep(s, s') && !Refused(s, s')
  {
    if s.headers != [] { IsIndexed(s, g); }
    match s.producer
    case PRewind => s' := Rewinds(s, PClear);
    case PClear =>
      var e := NextEntry(s);
      s' := s.(entries := s.entries[e := s.entries[e].(value := Null)], producer := PUndo(0));
    case PUndo(i) =>
      if i < |s.batch| {
        UndoFinds(s, g);
        var e := Newest(s).index[UndoSlot(s, i)];
        s' := s.(entries := s.entries[e := s.entries[e].(value := Null)], producer := PBack(i));
      } else {
        s' := s.(producer := PGive);
      }
    case PBack(i) => s' := Rewinds(s, PUndo(i + 1));
    case PGive =>
      s' := if s.batch != [] then s.(ours := s.ours - {s.batch[0]}, batch := s.batch[1..]) else s.(producer := PIdle);
  }

  lemma Rewinds(s: State, pc: ProducerPc) returns (s': State)
    requires Indexed(s)
    ensures Rewound(s, s') && s'.producer == pc
  {
    s' := s.(headers := SetTail(s, Wrap(Newest(s).tail - 1, Newest(s).capacity)), producer := pc);
  }

  // ------------------------------------------------------------------ a dequeue ends

  /** Steps a consumer with a claim may still take. */
  function Left(s: State, t: nat): int
    requires t < |s.readers| == |s.c.threads| && s.c.threads[t].Reading?
  {
    var end, n := C.ClaimEnd(s.c, t), s.c.threads[t].count;
    match s.readers[t]
    case RNone => 0
    case RStart => 9 * n + 3
    case RTail(_) => 9 * n + 2
    case RKey(_, _) => 9 * n + 1
    case RValue(_, _, i) => 9 * (end - i)
    case RRead(_, _, _, from, at) =>
      var to := BlockEnd(from, end);
      (to - at) + 9 * (end - to) + 5
    case RCount(_, _, _, _, to) => 9 * (end - to) + 4
    case RNull(_, _, _, _, to) => 9 * (end - to) + 3
    case RFree(_, _, _, _, to) => 9 * (end - to) + 2
    case RNext(_, _, to) => 9 * (end - to) + 1
  }

  ghost predicate Bounded(s: State, t: nat, s': State)
    requires t < |s.readers| == |s.c.threads| && s.c.threads[t].Reading?
  {
    && t < |s'.readers| == |s'.c.threads|
    && (s'.c.threads[t].Reading? ==> 0 <= Left(s', t) < Left(s, t))
  }

  lemma LookupBounded(s: State, g: Ghosts, t: nat, s': State)
    requires t < |s.readers| == |s.c.threads| && ReaderOk(s, g, t) && LookupStep(s, t, s')
    requires s.c.threads[t].count > 0
    ensures Bounded(s, t, s')
  {}

  lemma ReadBounded(s: State, g: Ghosts, t: nat, s': State)
    requires t < |s.readers| == |s.c.threads| && ReaderOk(s, g, t) && ReadStep(s, t, s')
    ensures Bounded(s, t, s')
  {}

  lemma ReleaseBounded(s: State, g: Ghosts, t: nat, s': State)
    requires t < |s.readers| == |s.c.threads| && ReaderOk(s, g, t) && ReleaseStep(s, t, s')
    ensures Bounded(s, t, s')
  {
    if s.readers[t].RNext? && s.readers[t].to >= C.ClaimEnd(s.c, t) { C.ReadingEnds(s.c, t, s'.c); }
  }

  /** A consumer that has claimed indices is done after at most nine steps for each of them
      and three more; none of these steps waits for anybody. */
  lemma DequeueBounded(tr: seq<State>, i: nat, t: nat)
    requires Execution(tr) && Asks(tr, 1) && i < |tr| && t < |tr[i].readers| == |tr[i].c.threads|
    requires tr[i].c.threads[t].Reading?
    ensures 0 <= Left(tr[i], t) <= 9 * tr[i].c.threads[t].count + 3
    ensures exists s' :: ConsumerStep(tr[i], t, s')
  {
    var g, _ := Reachable(tr, i);
    var s := tr[i];
    assert ReaderOk(s, g, t) && C.AsksSome(s.c.threads[t]);
    LeftIs(s, g, t);
    HasStep(s, g, t);
  }

  /** Each of them brings the end nearer. */
  lemma DequeueNearer(tr: seq<State>, i: nat, t: nat)
    requires Execution(tr) && Asks(tr, 1) && i + 1 < |tr| && t < |tr[i].readers| == |tr[i].c.threads|
    requires tr[i].c.threads[t].Reading? && ConsumerStep(tr[i], t, tr[i + 1])
    ensures Bounded(tr[i], t, tr[i + 1])
  {
    var g, _ := Reachable(tr, i);
    assert ReaderOk(tr[i], g, t) && C.AsksSome(tr[i].c.threads[t]);
    StepBounded(tr[i], g, t, tr[i + 1]);
  }

  lemma StepBounded(s: State, g: Ghosts, t: nat, s': State)
    requires t < |s.readers| == |s.c.threads| && ReaderOk(s, g, t) && ConsumerStep(s, t, s')
    requires s.c.threads[t].Reading? && s.c.threads[t].count > 0
    ensures Bounded(s, t, s')
  {
    if LookupStep(s, t, s') {
      LookupBounded(s, g, t, s');
    } else if ReadStep(s, t, s') {
      ReadBounded(s, g, t, s');
    } else {
      ReleaseBounded(s, g, t, s');
    }
  }

  lemma HasStep(s: State, g: Ghosts, t: nat)
    requires Inv(s, g) && t < |s.readers| && s.c.threads[t].Reading?
    ensures exists s' :: ConsumerStep(s, t, s')
  {
    var s' := ReaderStep(s, g, t);
  }

  lemma LeftIs(s: State, g: Ghosts, t: nat)
    requires t < |s.readers| == |s.c.threads| && s.c.threads[t].Reading? && ReaderOk(s, g, t)
    ensures 0 <= Left(s, t) <= 9 * s.c.threads[t].count + 3
  {}

  lemma ReaderStep(s: State, g: Ghosts, t: nat) returns (s': State)
    requires Inv(s, g) && t < |s.readers| && s.c.threads[t].Reading?
    ensures ConsumerStep(s, t, s')
  {
    assert ReaderOk(s, g, t);
    ReaderIsSafe(s, g, t);
    var first := s.c.threads[t].first;
    match s.readers[t]
    case RStart => s' := Go(s, t, RTail(|s.headers| - 1));
    case RTail(h) => s' := Go(s, t, RKey(h, s.headers[h].tail));
    case RKey(h, q) =>
      var key := s.entries[s.headers[h].index[q]].key;
      s' := Go(s, t, RValue(h, LookupSlot(q, key, first, s.headers[h].capacity), first));
    case RValue(h, slot, i) => s' := Go(s, t, RRead(h, slot, s.entries[s.headers[h].index[slot]].value, i, i));
    case RRead(_, _, _, _, _) => s' := ReadOf(s, t);
    case _ => s' := ReleaseOf(s, t);
  }

  lemma ReadOf(s: State, t: nat) returns (s': State)
    requires Active(s, t) && ReaderSafe(s, t) && s.readers[t].RRead?
    ensures ReadStep(s, t, s')
  {
    var r := s.readers[t];
    var to := BlockEnd(r.from, C.ClaimEnd(s.c, t));
    s' := if r.at < to then
            Go(s, t, r.(at := r.at + 1)).(read := s.read[r.at := s.elems[r.block.block][r.at % BLOCK_SIZE]])
          else Go(s, t, RCount(r.h, r.slot, r.block, r.from, to));
  }

  lemma ReleaseOf(s: State, t: nat) returns (s': State)
    requires Active(s, t) && ReaderSafe(s, t)
    requires s.readers[t].RCount? || s.readers[t].RNull? || s.readers[t].RFree? || s.readers[t].RNext?
    ensures ReleaseStep(s, t, s')
  {
    match s.readers[t]
    case RCount(h, slot, block, from, to) =>
      var n := s.dequeued[block.block] + (to - from);
      s' := Go(s, t, if n == BLOCK_SIZE then RNull(h, slot, block, from, to) else RNext(h, slot, to))
              .(dequeued := s.dequeued[block.block := n], finished := s.finished + Range(from, to));
    case RNull(h, slot, block, from, to) =>
      var e := s.headers[h].index[slot];
      s' := Go(s, t, RFree(h, slot, block, from, to)).(entries := s.entries[e := s.entries[e].(value := Null)]);
    case RFree(h, slot, block, from, to) =>
      s' := Go(s, t, RNext(h, slot, to))
              .(ours := s.ours - {block.block}, freed := s.freed + multiset{from / BLOCK_SIZE});
    case RNext(h, slot, to) =>
      if to < C.ClaimEnd(s.c, t) {
        s' := Go(s, t, RValue(h, Wrap(slot + 1, s.headers[h].capacity), to));
      } else {
        var c' := C.CanStep(s.c, t);
        s' := Go(s, t, RNone).(c := c');
      }
  }

  /** Another thread's steps do not touch a consumer's claim or its place in it. */
  lemma OthersLeave(s: State, t: nat, u: nat, s': State)
    requires ConsumerStep(s, u, s') && t < |s.readers| == |s.c.threads| && t != u
    ensures t < |s'.readers| == |s'.c.threads| && s'.readers[t] == s.readers[t] && s'.c.threads[t] == s.c.threads[t]
  {
    ConsumerProjects(s, u, s');
    if s'.c != s.c { C.CounterFacts(s.c, u, s'.c); }
    PlaceLeaves(s, t, u, s');
  }

  lemma PlaceLeaves(s: State, t: nat, u: nat, s': State)
    requires ConsumerStep(s, u, s') && t < |s.readers| == |s.c.threads| && t != u
    ensures |s'.readers| == |s.readers| && s'.readers[t] == s.readers[t]
  {
    if LookupStep(s, u, s') {
      LookupMoves(s, u, s');
    } else if ReleaseStep(s, u, s') {
      ReleaseMoves(s, u, s');
    }
  }

  lemma LookupMoves(s: State, u: nat, s': State)
    requires LookupStep(s, u, s')
    ensures |s'.readers| == |s.readers| && s'.readers == s.readers[u := s'.readers[u]]
  {}

  lemma ReleaseMoves(s: State, u: nat, s': State)
    requires ReleaseStep(s, u, s')
    ensures |s'.readers| == |s.readers| && s'.readers == s.readers[u := s'.readers[u]]
  {}
}
