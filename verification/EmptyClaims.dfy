/** What goes wrong when a bulk dequeue asks for no elements at all. Such a call makes an
    empty claim on a producer that has elements, looks up the block at the head although
    it owns nothing there, and counts zero elements of it as dequeued; a block that is
    already complete then counts as completed once more. The runs are given here, and the
    condition under which there are none: every call asks for at least one element. */
module EmptyClaims {
  import opened Blocks
  import opened Modular
  import opened ImplicitProducer
  import R = ImplicitProducerRuns
  import C = DequeueCounters

  // ------------------------------------------------------------------ pieces of runs

  ghost predicate Path(tr: seq<State>, a: State, b: State)
  {
    && tr != [] && tr[0] == a && tr[|tr| - 1] == b
    && forall i | 0 <= i < |tr| - 1 :: Next(tr[i], tr[i + 1])
  }

  ghost predicate Leads(a: State, b: State) { exists tr :: Path(tr, a, b) }

  lemma Stay(a: State)
    ensures Leads(a, a)
  {
    assert Path([a], a, a);
  }

  lemma Then(a: State, b: State, c: State)
    requires Leads(a, b) && Next(b, c)
    ensures Leads(a, c)
  {
    var tr :| Path(tr, a, b);
    var tr' := tr + [c];
    forall i | 0 <= i < |tr'| - 1 ensures Next(tr'[i], tr'[i + 1]) {
      if i < |tr| - 1 { assert Next(tr[i], tr[i + 1]); }
    }
    assert Path(tr', a, c);
  }

  lemma Produces(a: State, b: State, c: State)
    requires Leads(a, b) && ProducerStep(b, c)
    ensures Leads(a, c)
  {
    Then(a, b, c);
  }

  lemma Consumes(a: State, b: State, t: nat, c: State)
    requires Leads(a, b) && ConsumerStep(b, t, c)
    ensures Leads(a, c)
  {
    Then(a, b, c);
  }

  // ------------------------------------------------------------------ one full block

  function Zeros(): seq<Value> { seq(BLOCK_SIZE, _ => 0) }

  /** Two consumers, an index of two entries, nothing enqueued. */
  function Fresh(capacity: nat): State
  {
    State(C.State(0, 0, 0, 0, [C.Idle, C.Idle], []), [], [], map[], map[], {}, capacity, Null, [], PIdle,
          [RNone, RNone], [], map[], {}, multiset{})
  }

  function Ready(): State
  {
    Fresh(4).(headers := [Header(2, 1, [0, 1])],
              entries := [Entry(INVALID_BLOCK_BASE, Null), Entry(INVALID_BLOCK_BASE, Null)])
  }

  lemma ReadyIsInit()
    ensures Init(Ready())
  {
    var s0, s := Fresh(2), Ready();
    assert Start(s0);
    assert s.entries[..0] == s0.entries;
    assert [] + seq(|s.entries|, i => 0 + i) == [0, 1];
    assert IndexGrown(s0, s);
  }

  /** 32 elements are being enqueued, the first `at` of them written to block 0. */
  function Filling(at: nat): State
  {
    Ready().(headers := [Header(2, 0, [0, 1])], entries := [Entry(0, At(0)), Entry(INVALID_BLOCK_BASE, Null)],
             elems := map[0 := Zeros()], dequeued := map[0 := 0], ours := {0}, batch := [0],
             producer := PWrite(Zeros(), at))
  }

  /** The entry of position 0 has its key, and the index tail is at it. */
  function Keyed(): State
  {
    Ready().(headers := [Header(2, 0, [0, 1])], entries := [Entry(0, Null), Entry(INVALID_BLOCK_BASE, Null)],
             producer := PAlloc(Zeros()))
  }

  lemma Inserting()
    ensures Leads(Ready(), Keyed())
  {
    var s0, vs := Ready(), Zeros();
    var s1 := s0.(producer := PInsert(vs));
    var s2 := s0.(producer := PKey(vs));
    var s3 := s0.(entries := [Entry(0, Null), Entry(INVALID_BLOCK_BASE, Null)], producer := PTail(vs));
    Stay(s0);
    assert EnqueueCall(s0, vs, s1);
    Produces(s0, s0, s1);
    assert Wrap(2, 2) == 0;
    assert NextEntry(s1) == 0;
    Produces(s0, s1, s2);
    Produces(s0, s2, s3);
    Produces(s0, s3, Keyed());
  }

  lemma Inserted()
    ensures Leads(Ready(), Filling(0))
  {
    var s4, vs := Keyed(), Zeros();
    var s5 := s4.(elems := map[0 := Zeros()], dequeued := map[0 := 0], ours := {0}, producer := PValue(vs, 0));
    Inserting();
    assert Taken(s4, 0, s5);
    Produces(Ready(), s4, s5);
    Produces(Ready(), s5, Filling(0));
  }

  lemma {:induction false} Filled(at: nat)
    requires at <= BLOCK_SIZE
    ensures Leads(Ready(), Filling(at))
  {
    if at == 0 {
      Inserted();
    } else {
      Filled(at - 1);
      assert Zeros()[at - 1 := 0] == Zeros();
      assert ElementWritten(Filling(at - 1), Zeros(), at - 1, Filling(at));
      Produces(Ready(), Filling(at - 1), Filling(at));
    }
  }

  /** Indices 0 to 31 are published, in block 0. */
  function Full(): State
  {
    Filling(BLOCK_SIZE).(c := C.State(BLOCK_SIZE, 0, 0, 0, [C.Idle, C.Idle], []), enqueued := Zeros(), batch := [],
                         tailBlock := At(0), producer := PIdle)
  }

  lemma Published()
    ensures Leads(Ready(), Full())
  {
    Filled(BLOCK_SIZE);
    assert [] + Zeros() == Zeros();
    Produces(Ready(), Filling(BLOCK_SIZE), Full());
  }

  // ------------------------------------------------------------------ the empty claim

  /** Consumer 0 has asked for nothing and claimed nothing, and looks up the head. */
  function Looking(r: ReaderPc): State
  {
    Full().(c := C.State(BLOCK_SIZE, 0, 0, 0, [C.Reading(0, 0), C.Idle], [C.Grant(0, 0, 0)]), readers := [r, RNone])
  }

  function Counters(pc: C.Pc): State
  { Full().(c := C.State(BLOCK_SIZE, 0, 0, 0, [pc, C.Idle], [])) }

  /** A call with max = 0 gets past both tests, because there are elements. */
  lemma PassesTests()
    ensures Leads(Ready(), Counters(C.Claim(0)))
  {
    Published();
    assert Full() == Counters(C.Idle);
    Counting(C.Idle, C.SawTail(0, BLOCK_SIZE));
    Counting(C.SawTail(0, BLOCK_SIZE), C.SawOver(0, BLOCK_SIZE, 0));
    Counting(C.SawOver(0, BLOCK_SIZE, 0), C.Ready(0, 0));
    Counting(C.Ready(0, 0), C.Ticket(0, 0, 0));
    Counting(C.Ticket(0, 0, 0), C.Claim(0));
  }

  lemma ClaimsNothing()
    ensures Leads(Ready(), Looking(RStart))
  {
    PassesTests();
    var s, s' := Counters(C.Claim(0)), Looking(RStart);
    assert [] + [C.Grant(0, 0, 0)] == [C.Grant(0, 0, 0)];
    assert C.ThreadStep(s.c, 0, s'.c);
    assert CountStep(s, 0, s');
    Consumes(Ready(), s, 0, s');
  }

  /** Consumer 0 steps on the counters, before its claim. */
  lemma Counting(pc: C.Pc, pc': C.Pc)
    requires Leads(Ready(), Counters(pc)) && !pc.Reading? && !pc'.Reading?
    requires C.ThreadStep(Counters(pc).c, 0, Counters(pc').c)
    ensures Leads(Ready(), Counters(pc'))
  {
    assert CountStep(Counters(pc), 0, Counters(pc'));
    Consumes(Ready(), Counters(pc), 0, Counters(pc'));
  }

  lemma LooksUp()
    ensures Leads(Ready(), Looking(RValue(0, 0, 0)))
  {
    var a := Ready();
    ClaimsNothing();
    assert LookupStep(Looking(RStart), 0, Looking(RTail(0)));
    Consumes(a, Looking(RStart), 0, Looking(RTail(0)));
    assert LookupStep(Looking(RTail(0)), 0, Looking(RKey(0, 0)));
    Consumes(a, Looking(RTail(0)), 0, Looking(RKey(0, 0)));
    assert LookupStep(Looking(RKey(0, 0)), 0, Looking(RValue(0, 0, 0)));
    Consumes(a, Looking(RKey(0, 0)), 0, Looking(RValue(0, 0, 0)));
  }

  lemma ReadsNothing()
    ensures Leads(Ready(), Looking(RCount(0, 0, At(0), 0, 0)))
  {
    var a := Ready();
    LooksUp();
    assert LookupStep(Looking(RValue(0, 0, 0)), 0, Looking(RRead(0, 0, At(0), 0, 0)));
    Consumes(a, Looking(RValue(0, 0, 0)), 0, Looking(RRead(0, 0, At(0), 0, 0)));
    assert ReadStep(Looking(RRead(0, 0, At(0), 0, 0)), 0, Looking(RCount(0, 0, At(0), 0, 0)));
    Consumes(a, Looking(RRead(0, 0, At(0), 0, 0)), 0, Looking(RCount(0, 0, At(0), 0, 0)));
  }

  // ------------------------------------------------------------------ the other consumer

  /** Consumer 1 claims all 32 elements while consumer 0 waits at r. */
  function Taking(r: ReaderPc, pc: C.Pc, optimistic: nat): State
  {
    Looking(r).(c := C.State(BLOCK_SIZE, 0, optimistic, 0, [C.Reading(0, 0), pc], [C.Grant(0, 0, 0)]))
  }

  function Reading(r: ReaderPc, q: ReaderPc, at: nat): State
  {
    Looking(r).(c := C.State(BLOCK_SIZE, BLOCK_SIZE, BLOCK_SIZE, 0, [C.Reading(0, 0), C.Reading(0, BLOCK_SIZE)],
                             [C.Grant(0, 0, 0), C.Grant(1, 0, BLOCK_SIZE)]),
                readers := [r, q], read := map i | i in Range(0, at) :: 0)
  }

  lemma Takes(r: ReaderPc, pc: C.Pc, n: nat, pc': C.Pc, n': nat)
    requires Leads(Ready(), Taking(r, pc, n)) && !pc.Reading? && !pc'.Reading?
    requires C.ThreadStep(Taking(r, pc, n).c, 1, Taking(r, pc', n').c)
    ensures Leads(Ready(), Taking(r, pc', n'))
  {
    assert CountStep(Taking(r, pc, n), 1, Taking(r, pc', n'));
    Consumes(Ready(), Taking(r, pc, n), 1, Taking(r, pc', n'));
  }

  lemma AsksForAll(r: ReaderPc)
    requires Leads(Ready(), Looking(r))
    ensures Leads(Ready(), Taking(r, C.Claim(BLOCK_SIZE), BLOCK_SIZE))
  {
    var n := BLOCK_SIZE;
    assert Looking(r) == Taking(r, C.Idle, 0);
    Takes(r, C.Idle, 0, C.SawTail(n, n), 0);
    Takes(r, C.SawTail(n, n), 0, C.SawOver(n, n, 0), 0);
    Takes(r, C.SawOver(n, n, 0), 0, C.Ready(n, 0), 0);
    Takes(r, C.Ready(n, 0), 0, C.Ticket(n, 0, 0), n);
    Takes(r, C.Ticket(n, 0, 0), n, C.Claim(n), n);
  }

  lemma ClaimsAll(r: ReaderPc)
    requires Leads(Ready(), Looking(r))
    ensures Leads(Ready(), Reading(r, RStart, 0))
  {
    var n := BLOCK_SIZE;
    AsksForAll(r);
    var s, s' := Taking(r, C.Claim(n), n), Reading(r, RStart, 0);
    assert [C.Grant(0, 0, 0)] + [C.Grant(1, 0, n)] == [C.Grant(0, 0, 0), C.Grant(1, 0, n)];
    assert s'.read == map[];
    assert C.ThreadStep(s.c, 1, s'.c);
    assert CountStep(s, 1, s');
    Consumes(Ready(), s, 1, s');
  }

  /** Consumer 1 looks up its block as consumer 0 did. */
  lemma FindsBlock(r: ReaderPc)
    requires Leads(Ready(), Looking(r))
    ensures Leads(Ready(), Reading(r, RRead(0, 0, At(0), 0, 0), 0))
  {
    ClaimsAll(r);
    Follows(r, RStart, RTail(0));
    Follows(r, RTail(0), RKey(0, 0));
    Follows(r, RKey(0, 0), RValue(0, 0, 0));
    Follows(r, RValue(0, 0, 0), RRead(0, 0, At(0), 0, 0));
  }

  lemma Follows(r: ReaderPc, q: ReaderPc, q': ReaderPc)
    requires Leads(Ready(), Reading(r, q, 0)) && LookupStep(Reading(r, q, 0), 1, Reading(r, q', 0))
    ensures Leads(Ready(), Reading(r, q', 0))
  {
    Consumes(Ready(), Reading(r, q, 0), 1, Reading(r, q', 0));
  }

  lemma {:induction false} ReadsSome(r: ReaderPc, at: nat)
    requires Leads(Ready(), Looking(r)) && at <= BLOCK_SIZE
    ensures Leads(Ready(), Reading(r, RRead(0, 0, At(0), 0, at), at))
  {
    if at == 0 {
      FindsBlock(r);
    } else {
      ReadsSome(r, at - 1);
      var s, s' := Reading(r, RRead(0, 0, At(0), 0, at - 1), at - 1), Reading(r, RRead(0, 0, At(0), 0, at), at);
      assert s'.read == s.read[at - 1 := 0];
      assert ReadStep(s, 1, s');
      Consumes(Ready(), s, 1, s');
    }
  }

  /** Consumer 1 has emptied the block, cleared its entry and given it back. */
  function GivenBack(r: ReaderPc): State
  {
    Reading(r, RNext(0, 0, BLOCK_SIZE), BLOCK_SIZE)
      .(entries := [Entry(0, Null), Entry(INVALID_BLOCK_BASE, Null)], dequeued := map[0 := BLOCK_SIZE], ours := {},
        finished := Range(0, BLOCK_SIZE), freed := multiset{0})
  }

  /** Consumer 1 has counted all 32 elements. */
  function Counted(r: ReaderPc): State
  {
    Reading(r, RNull(0, 0, At(0), 0, BLOCK_SIZE), BLOCK_SIZE)
      .(dequeued := map[0 := BLOCK_SIZE], finished := Range(0, BLOCK_SIZE))
  }

  lemma CountsAll(r: ReaderPc)
    requires Leads(Ready(), Looking(r))
    ensures Leads(Ready(), Counted(r))
  {
    var a, n := Ready(), BLOCK_SIZE;
    ReadsSome(r, n);
    var s0, s1 := Reading(r, RRead(0, 0, At(0), 0, n), n), Reading(r, RCount(0, 0, At(0), 0, n), n);
    assert ReadStep(s0, 1, s1);
    Consumes(a, s0, 1, s1);
    assert {} + Range(0, n) == Range(0, n);
    assert ReleaseStep(s1, 1, Counted(r));
    Consumes(a, s1, 1, Counted(r));
  }

  lemma GivesBack(r: ReaderPc)
    requires Leads(Ready(), Looking(r))
    ensures Leads(Ready(), GivenBack(r))
  {
    var a, s2 := Ready(), Counted(r);
    CountsAll(r);
    var s3 := s2.(readers := [r, RFree(0, 0, At(0), 0, BLOCK_SIZE)],
                  entries := [Entry(0, Null), Entry(INVALID_BLOCK_BASE, Null)]);
    assert ReleaseStep(s2, 1, s3);
    Consumes(a, s2, 1, s3);
    assert s3.ours - {0} == {};
    assert ReleaseStep(s3, 1, GivenBack(r));
    Consumes(a, s3, 1, GivenBack(r));
  }

  // ------------------------------------------------------------------ the failing runs

  lemma IsExecution(s: State) returns (tr: seq<State>)
    requires Leads(Ready(), s)
    ensures Execution(tr) && Asks(tr, 0) && tr[|tr| - 1] == s
  {
    ReadyIsInit();
    tr :| Path(tr, Ready(), s);
  }

  /** Consumer 0 counts zero elements of the completed block, and finds it complete. */
  lemma CountsZero()
    ensures Leads(Ready(), GivenBack(RNull(0, 0, At(0), 0, 0)))
  {
    var r := RCount(0, 0, At(0), 0, 0);
    ReadsNothing();
    GivesBack(r);
    var s0, s1 := GivenBack(r), GivenBack(RNull(0, 0, At(0), 0, 0));
    assert s0.finished + Range(0, 0) == s0.finished && s0.dequeued[0 := BLOCK_SIZE] == s0.dequeued;
    assert ReleaseStep(s0, 0, s1);
    Consumes(Ready(), s0, 0, s1);
  }

  /** So the block is given back a second time. */
  lemma GivenBackTwice() returns (tr: seq<State>)
    ensures Execution(tr) && tr[|tr| - 1].freed[0] == 2
  {
    CountsZero();
    var s1, s2 := GivenBack(RNull(0, 0, At(0), 0, 0)), GivenBack(RFree(0, 0, At(0), 0, 0));
    assert s1.entries[0 := s1.entries[0].(value := Null)] == s1.entries;
    assert ReleaseStep(s1, 0, s2);
    Consumes(Ready(), s1, 0, s2);
    var s3 := GivenBack(RNext(0, 0, 0)).(freed := multiset{0, 0});
    assert s2.ours - {0} == s2.ours;
    assert ReleaseStep(s2, 0, s3);
    Consumes(Ready(), s2, 0, s3);
    tr := IsExecution(s3);
  }

  /** An empty claim that loads its entry a little later finds it cleared, and the source
      follows the null pointer. */
  lemma NullFound() returns (tr: seq<State>)
    ensures Execution(tr)
    ensures var s := tr[|tr| - 1];
      && |s.readers| == 2 && s.readers[0] == RValue(0, 0, 0) && InIndex(s, 0, 0)
      && s.entries[s.headers[0].index[0]].value == Null && !R.ReaderSafe(s, 0)
  {
    LooksUp();
    GivesBack(RValue(0, 0, 0));
    tr := IsExecution(GivenBack(RValue(0, 0, 0)));
  }

  // ------------------------------------------------------------------ exactly when

  ghost predicate GivesBackOnce(tr: seq<State>)
  {
    forall i, p | 0 <= i < |tr| :: tr[i].freed[p] <= 1
  }

  ghost predicate FindsBlocks(tr: seq<State>)
  {
    forall i, t: nat | 0 <= i < |tr| && t < |tr[i].readers| :: R.ReaderSafe(tr[i], t)
  }

  /** In all runs in which every dequeue asks for at least `least` elements, no block is
      given back twice and every lookup finds its block, if and only if `least` is positive. */
  lemma SafeIffAsking(least: nat)
    ensures (forall tr | Execution(tr) && Asks(tr, least) :: GivesBackOnce(tr)) <==> least > 0
    ensures (forall tr | Execution(tr) && Asks(tr, least) :: FindsBlocks(tr)) <==> least > 0
  {
    if least > 0 {
      forall tr | Execution(tr) && Asks(tr, least) ensures GivesBackOnce(tr) && FindsBlocks(tr) {
        AskingIsSafe(tr, least);
      }
    } else {
      var tr := GivenBackTwice();
      assert Asks(tr, 0) && !GivesBackOnce(tr);
      var tr' := NullFound();
      assert Asks(tr', 0) && !FindsBlocks(tr');
    }
  }

  lemma AskingIsSafe(tr: seq<State>, least: nat)
    requires Execution(tr) && Asks(tr, least) && least > 0
    ensures GivesBackOnce(tr) && FindsBlocks(tr)
  {
    forall i | 0 <= i < |tr| ensures C.Asks(tr[i].c, 1) {
      assert C.Asks(tr[i].c, least);
    }
    forall i, p | 0 <= i < |tr| ensures tr[i].freed[p] <= 1 {
      R.ReleasedOnce(tr, i, p);
    }
    forall i, t: nat | 0 <= i < |tr| && t < |tr[i].readers| ensures R.ReaderSafe(tr[i], t) {
      R.LookupSound(tr, i, t);
    }
  }
}
