/** The lock-free, reference-counted free list of the concurrent queue, as a step
    relation: every atomic load, store, fetch-add and compare-exchange of `add`,
    `try_get` and `add_knowing_refcount_is_zero` is one step of one thread, and any
    interleaving of the threads' steps is an execution. */
module FreeList {
  import opened Totals

  type Node = nat

  datatype Ptr = Null | At(node: Node)

  const SHOULD_BE_ON_FREELIST := 0x8000_0000
  const WORD := 0x1_0000_0000
  const MAX_THREADS := 0x7FFF_FFF0

  /** Arithmetic on `freeListRefs`, a 32-bit unsigned word: a result off by at most one
      wrap-around, the low 31 bits of a word, and its top bit. */
  function Word(x: int): int { if x < 0 then x + WORD else if x < WORD then x else x - WORD }
  function Count(refs: int): int { if Marked(refs) then refs - SHOULD_BE_ON_FREELIST else refs }
  predicate Marked(refs: int) { refs >= SHOULD_BE_ON_FREELIST }

  /** What a thread does after `add_knowing_refcount_is_zero`: return to the caller of
      `add`, or go round the loop of `try_get` with the head it last saw. */
  datatype Cont = Return | Retry(head: Ptr)

  datatype Pc =
    | Idle
    // add_knowing_refcount_is_zero(node)
    | AddHead(node: Node, k: Cont)               // about to load the list head
    | AddNext(node: Node, seen: Ptr, k: Cont)    // about to store node.next
    | AddRefs(node: Node, seen: Ptr, k: Cont)    // about to store 1 in node.refs
    | AddCas(node: Node, seen: Ptr, k: Cont)     // about to swing the head to node
    | AddDefer(node: Node, seen: Ptr, k: Cont)   // lost the race: about to re-mark node
    // try_get()
    | GetHead                                    // about to load the list head
    | GetRefs(node: Node)                        // about to load node.refs
    | GetRef(node: Node, refs: int)              // about to increment node.refs by CAS
    | GetNext(node: Node)                        // holds a reference: about to load node.next
    | GetCas(node: Node, next: Ptr)              // holds a reference: about to swing the head
    | GetRelease(node: Node)                     // took the node: about to drop two references
    | GetDrop(node: Node, seen: Ptr)             // lost the race: about to drop its reference

  datatype State = State(
    head: Ptr,
    next: map<Node, Ptr>,
    refs: map<Node, int>,
    owned: multiset<Node>,   // one copy for every client that believes it has the node
    threads: seq<Pc>)

  // ------------------------------------------------------------------ steps

  function LoopTest(head: Ptr): Pc { if head.Null? then Idle else GetRefs(head.node) }

  function Resume(k: Cont): Pc { if k.Return? then Idle else LoopTest(k.head) }

  function Goto(s: State, t: nat, pc: Pc): State
    requires t < |s.threads|
  { s.(threads := s.threads[t := pc]) }

  /** `s.refs[n]` changes to `v` and thread t moves to `pc`. */
  function SetRefs(s: State, t: nat, n: Node, v: int, pc: Pc): State
    requires t < |s.threads|
  { Goto(s, t, pc).(refs := s.refs[n := v]) }

  ghost predicate AddStep(s: State, t: nat, s': State)
    requires t < |s.threads|
  {
    match s.threads[t]
    case AddHead(n, k) =>
      s' == Goto(s, t, AddNext(n, s.head, k))
    case AddNext(n, h, k) =>
      s' == Goto(s, t, AddRefs(n, h, k)).(next := s.next[n := h])
    case AddRefs(n, h, k) =>
      s' == SetRefs(s, t, n, 1, AddCas(n, h, k))
    case AddCas(n, h, k) =>
      if s.head == h then s' == Goto(s, t, Resume(k)).(head := At(n))
      else s' == Goto(s, t, AddDefer(n, s.head, k))
    case AddDefer(n, h, k) =>
      n in s.refs &&
      s' == SetRefs(s, t, n, Word(s.refs[n] + SHOULD_BE_ON_FREELIST - 1),
                    if s.refs[n] == 1 then AddNext(n, h, k) else Resume(k))
    case _ => false
  }

  ghost predicate GetStep(s: State, t: nat, s': State)
    requires t < |s.threads|
  {
    match s.threads[t]
    case GetHead =>
      s' == Goto(s, t, LoopTest(s.head))
    case GetRefs(n) =>
      n in s.refs &&
      s' == Goto(s, t, if Count(s.refs[n]) == 0 then GetHead else GetRef(n, s.refs[n]))
    case GetRef(n, r) =>
      n in s.refs &&
      (if s.refs[n] == r then s' == SetRefs(s, t, n, Word(r + 1), GetNext(n))
       else s' == Goto(s, t, GetHead))
    case GetNext(n) =>
      n in s.next && s' == Goto(s, t, GetCas(n, s.next[n]))
    case GetCas(n, nx) =>
      if s.head == At(n) then s' == Goto(s, t, GetRelease(n)).(head := nx)
      else s' == Goto(s, t, GetDrop(n, s.head))
    case GetRelease(n) =>
      n in s.refs &&
      s' == SetRefs(s, t, n, Word(s.refs[n] - 2), Idle).(owned := s.owned + multiset{n})
    case GetDrop(n, h) =>
      n in s.refs &&
      s' == SetRefs(s, t, n, Word(s.refs[n] - 1),
                    if s.refs[n] == SHOULD_BE_ON_FREELIST + 1 then AddHead(n, Retry(h)) else LoopTest(h))
    case _ => false
  }

  /** A client call: `add` of a node the client owns (its fetch-add is the first step),
      or the start of a `try_get`. */
  ghost predicate CallStep(s: State, t: nat, s': State)
    requires t < |s.threads|
  {
    s.threads[t].Idle? &&
    (|| (exists n :: AddCall(s, t, n, s'))
     || s' == Goto(s, t, GetHead))
  }

  ghost predicate AddCall(s: State, t: nat, n: Node, s': State)
    requires t < |s.threads|
  {
    n in s.owned && n in s.refs &&
    s' == SetRefs(s, t, n, Word(s.refs[n] + SHOULD_BE_ON_FREELIST),
                  if s.refs[n] == 0 then AddHead(n, Return) else Idle).(owned := s.owned - multiset{n})
  }

  /** A client allocates a node; a node starts unreferenced and owned by its client. */
  ghost predicate Allocate(s: State, n: Node, s': State)
  {
    n !in s.refs && n !in s.next &&
    s' == s.(next := s.next[n := Null], refs := s.refs[n := 0], owned := s.owned + multiset{n})
  }

  ghost predicate ThreadStep(s: State, t: nat, s': State)
  {
    t < |s.threads| && (CallStep(s, t, s') || AddStep(s, t, s') || GetStep(s, t, s'))
  }

  ghost predicate Init(s: State)
  {
    && s.head == Null && s.next == map[] && s.refs == map[] && s.owned == multiset{}
    && |s.threads| <= MAX_THREADS
    && forall t | 0 <= t < |s.threads| :: s.threads[t] == Idle
  }

  ghost predicate Next(s: State, s': State)
  {
    (exists t :: ThreadStep(s, t, s')) || (exists n :: Allocate(s, n, s'))
  }

  ghost predicate Execution(tr: seq<State>)
  {
    && tr != [] && Init(tr[0])
    && forall i | 0 <= i < |tr| - 1 :: Next(tr[i], tr[i + 1])
  }

  // ------------------------------------------------------------------ what is observed

  /** `l` is the linked list that starts at `p`, in order. */
  ghost predicate Chain(p: Ptr, next: map<Node, Ptr>, l: seq<Node>)
    decreases |l|
  {
    if l == [] then p == Null
    else p == At(l[0]) && l[0] in next && Chain(next[l[0]], next, l[1..])
  }

  ghost predicate NoRepeats(l: seq<Node>)
  {
    forall i, j | 0 <= i < j < |l| :: l[i] != l[j]
  }

  predicate Holds(pc: Pc, n: Node)
  {
    (pc.GetNext? || pc.GetCas? || pc.GetDrop?) && pc.node == n
  }
  predicate Inserting(pc: Pc, n: Node)   // inside add_knowing_refcount_is_zero, count still zero
  {
    (pc.AddHead? || pc.AddNext? || pc.AddRefs?) && pc.node == n
  }
  predicate Offering(pc: Pc, n: Node)    // inside it too, but the count is 1 or more again
  {
    (pc.AddCas? || pc.AddDefer?) && pc.node == n
  }
  predicate Taking(pc: Pc, n: Node) { pc.GetRelease? && pc.node == n }


  function Holding(n: Node): Pc -> int { pc => One(Holds(pc, n)) }
  function Adding(n: Node): Pc -> int { pc => One(Inserting(pc, n) || Offering(pc, n)) }
  function Busy(n: Node): Pc -> int { pc => One(Inserting(pc, n) || Offering(pc, n) || Taking(pc, n)) }

  /** References a thread accounts for: its own, a tentative list reference while it
      offers the node, or its own plus the list's once it has unlinked the node. */
  function RefsFrom(n: Node): Pc -> int
  {
    pc => One(Holds(pc, n)) + One(Offering(pc, n)) + 2 * One(Taking(pc, n))
  }

  /** What holds of node n when l is the list. */
  ghost predicate NodeSafe(s: State, l: seq<Node>, n: Node)
    requires n in s.refs
  {
    var r := s.refs[n];
    // the reference count is the list's reference plus those of the threads
    && 0 <= r < WORD
    && Count(r) == One(n in l) + Total(s.threads, RefsFrom(n))
    // never owned twice, never owned while listed, marked, being added or being taken
    && s.owned[n] + One(n in l) + One(Marked(r)) <= 1
    && Total(s.threads, Adding(n)) <= 1
    && (s.owned[n] == 1 ==> Total(s.threads, Busy(n)) == 0)
    && (n in l ==> Total(s.threads, Busy(n)) == 0)
    // a marked node with no reference has exactly one thread inserting it
    && (Marked(r) && Count(r) == 0 ==> Total(s.threads, Adding(n)) == 1)
    // and a marked node that is still referenced has none: the last to let go will do it
    && (Marked(r) && Count(r) > 0 ==>
          Total(s.threads, Adding(n)) == 0 && Total(s.threads, Holding(n)) > 0)
    // nothing is lost
    && (s.owned[n] == 1 || n in l || Marked(r) || Total(s.threads, Busy(n)) == 1)
  }

  ghost predicate Safe(s: State)
  {
    exists l: seq<Node> ::
      && Chain(s.head, s.next, l) && NoRepeats(l)
      && (forall n | n in l :: n in s.refs)
      && (forall n | n in s.refs :: NodeSafe(s, l, n))
  }

  // ------------------------------------------------------------------ the invariant

  /** Where a node is in its life; the invariant attributes every node one phase. */
  datatype Phase =
    | Owned
    | Deferred             // marked, and somebody still holds a reference
    | Insert(who: nat)      // marked, unreferenced, thread `who` is inserting it
    | Offer(who: nat)       // unmarked again, thread `who` is swinging the head
    | Listed
    | Take(who: nat)        // unlinked by thread `who`, which has not dropped its references

  datatype Ghosts = Ghosts(list: seq<Node>, phase: map<Node, Phase>)

  function Base(p: Phase): int
  {
    match p
    case Owned => 0
    case Deferred => SHOULD_BE_ON_FREELIST
    case Insert(_) => SHOULD_BE_ON_FREELIST
    case Offer(_) => 1
    case Listed => 1
    case Take(_) => 2
  }

  ghost predicate Known(s: State, p: Ptr) { p.At? ==> p.node in s.refs }

  ghost predicate KnownCont(s: State, k: Cont) { k.Retry? ==> Known(s, k.head) }

  ghost predicate NodeOk(s: State, g: Ghosts, n: Node)
    requires n in s.refs && n in g.phase && n in s.next
  {
    var p := g.phase[n];
    var held := Total(s.threads, Holding(n));
    && s.refs[n] == Base(p) + held
    && (p.Deferred? ==> held > 0)
    && (p.Insert? ==> held == 0)
    && s.owned[n] == One(p.Owned?)
    && (n in g.list <==> p.Listed?)
    && (p.Insert? ==> p.who < |s.threads| && Inserting(s.threads[p.who], n))
    && (p.Offer? ==> p.who < |s.threads| && Offering(s.threads[p.who], n))
    && (p.Take? ==> p.who < |s.threads| && Taking(s.threads[p.who], n))
    && Known(s, s.next[n])
  }

  predicate HasNode(pc: Pc) { !pc.Idle? && !pc.GetHead? }
  predicate Inserts(pc: Pc) { pc.AddHead? || pc.AddNext? || pc.AddRefs? }
  predicate Offers(pc: Pc) { pc.AddCas? || pc.AddDefer? }
  predicate Refers(pc: Pc) { pc.GetNext? || pc.GetCas? || pc.GetDrop? }

  /** The only node this thread has a stake in is n. */
  predicate OnlyAt(pc: Pc, n: Node)
  {
    Inserts(pc) || Offers(pc) || Refers(pc) || pc.GetRelease? ==> pc.node == n
  }

  ghost predicate ThreadOk(s: State, g: Ghosts, t: nat)
    requires t < |s.threads| && s.next.Keys == s.refs.Keys == g.phase.Keys
  {
    var pc := s.threads[t];
    && (HasNode(pc) ==> pc.node in s.refs)
    && (Inserts(pc) ==> g.phase[pc.node] == Insert(t) && KnownCont(s, pc.k))
    && (Offers(pc) ==> g.phase[pc.node] == Offer(t) && KnownCont(s, pc.k))
    && (pc.GetRelease? ==> g.phase[pc.node] == Take(t))
    && (pc.AddRefs? || pc.AddCas? ==> s.next[pc.node] == pc.seen)
    && (pc.GetCas? ==> s.next[pc.node] == pc.next)
    && (pc.AddNext? || pc.AddDefer? || pc.GetDrop? ==> Known(s, pc.seen))
    && (pc.GetRef? ==> 0 <= pc.refs && Count(pc.refs) != 0)
  }

  ghost predicate Inv(s: State, g: Ghosts)
  {
    && |s.threads| <= MAX_THREADS
    && s.next.Keys == s.refs.Keys == g.phase.Keys
    && Chain(s.head, s.next, g.list) && NoRepeats(g.list)
    && (forall n | n in g.list :: n in s.refs)
    && (forall n | n in s.owned :: n in s.refs)
    && (forall n | n in s.refs :: NodeOk(s, g, n))
    && (forall t: nat | t < |s.threads| :: ThreadOk(s, g, t))
  }

  // ------------------------------------------------------------------ helper lemmas

  lemma {:induction false} ChainFrame(p: Ptr, next: map<Node, Ptr>, l: seq<Node>, n: Node, v: Ptr)
    requires Chain(p, next, l) && n !in l
    ensures Chain(p, next[n := v], l)
    decreases |l|
  {
    if l != [] {
      ChainFrame(next[l[0]], next, l[1..], n, v);
    }
  }

  lemma HeldBound(s: State, n: Node)
    ensures 0 <= Total(s.threads, Holding(n)) <= |s.threads|
  {
    TotalCount(s.threads, Holding(n));
  }

  lemma MoveHeld(s: State, t: nat, pc: Pc, n: Node)
    requires t < |s.threads|
    ensures Total(s.threads[t := pc], Holding(n))
         == Total(s.threads, Holding(n)) - One(Holds(s.threads[t], n)) + One(Holds(pc, n))
    ensures Holds(s.threads[t], n) ==> Total(s.threads, Holding(n)) >= 1
  {
    TotalUpdate(s.threads, t, pc, Holding(n));
    TotalAtLeast(s.threads, Holding(n), t);
  }

  lemma NobodyHolds(s: State, n: Node)
    requires Total(s.threads, Holding(n)) == 0
    ensures forall u | 0 <= u < |s.threads| :: !Holds(s.threads[u], n)
  {
    forall u | 0 <= u < |s.threads| ensures !Holds(s.threads[u], n) {
      TotalAtLeast(s.threads, Holding(n), u);
    }
  }

  // ------------------------------------------------------------------ every step keeps it

  /** Thread t moves and node n may change word, phase, owner and list membership, but
      no link changes. */
  ghost predicate WordChange(s: State, g: Ghosts, t: nat, n: Node, s': State, g': Ghosts)
  {
    && t < |s.threads| == |s'.threads|
    && s'.threads == s.threads[t := s'.threads[t]]
    && s'.next == s.next && n in s.refs && n in s'.refs && n in g'.phase
    && s'.refs == s.refs[n := s'.refs[n]] && g'.phase == g.phase[n := g'.phase[n]]
    && s'.owned == s.owned[n := s'.owned[n]]
    && (forall m | m != n :: m in g'.list <==> m in g.list)
    && OnlyAt(s.threads[t], n) && OnlyAt(s'.threads[t], n)
  }

  lemma AllNodes(s: State, g: Ghosts, t: nat, n: Node, s': State, g': Ghosts)
    requires s.next.Keys == s.refs.Keys == g.phase.Keys && WordChange(s, g, t, n, s', g')
    requires forall m | m in s.refs :: NodeOk(s, g, m)
    requires NodeOk(s', g', n)
    ensures forall m | m in s'.refs :: m in s'.next && m in g'.phase && NodeOk(s', g', m)
  {
    forall m | m in s'.refs ensures NodeOk(s', g', m) {
      if m != n {
        assert NodeOk(s, g, m);
        MoveHeld(s, t, s'.threads[t], m);
      }
    }
  }

  lemma AllThreads(s: State, g: Ghosts, t: nat, n: Node, s': State, g': Ghosts)
    requires s.next.Keys == s.refs.Keys == g.phase.Keys && WordChange(s, g, t, n, s', g')
    requires forall u: nat | u < |s.threads| :: ThreadOk(s, g, u)
    requires g'.phase[n] != g.phase[n] ==>
      g.phase[n] in {Owned, Deferred, Listed, Insert(t), Offer(t), Take(t)}
    requires ThreadOk(s', g', t)
    ensures s'.next.Keys == s'.refs.Keys == g'.phase.Keys
    ensures forall u: nat | u < |s'.threads| :: ThreadOk(s', g', u)
  {
    forall u: nat | u < |s'.threads| ensures ThreadOk(s', g', u) {
      if u != t { assert ThreadOk(s, g, u); }
    }
  }

  lemma WordKeeps(s: State, g: Ghosts, t: nat, n: Node, s': State, g': Ghosts)
    requires Inv(s, g) && WordChange(s, g, t, n, s', g')
    requires g'.phase[n] != g.phase[n] ==>
      g.phase[n] in {Owned, Deferred, Listed, Insert(t), Offer(t), Take(t)}
    requires NodeOk(s', g', n) && ThreadOk(s', g', t)
    requires Chain(s'.head, s'.next, g'.list) && NoRepeats(g'.list)
    ensures Inv(s', g')
  {
    AllNodes(s, g, t, n, s', g');
    AllThreads(s, g, t, n, s', g');
    OwnersKnown(s, n, s');
  }

  lemma OwnersKnown(s: State, n: Node, s': State)
    requires n in s.refs && s'.refs.Keys == s.refs.Keys && s'.owned == s.owned[n := s'.owned[n]]
    requires forall m | m in s.owned :: m in s.refs
    ensures forall m | m in s'.owned :: m in s'.refs
  {
    assert forall m | m in s'.owned :: m == n || m in s.owned;
  }

  /** Only thread t moves, and it keeps its stake. */
  lemma MoveKeeps(s: State, g: Ghosts, t: nat, pc: Pc)
    requires Inv(s, g) && t < |s.threads|
    requires Inserts(s.threads[t]) == Inserts(pc) && Offers(s.threads[t]) == Offers(pc)
    requires Refers(s.threads[t]) == Refers(pc) && s.threads[t].GetRelease? == pc.GetRelease?
    requires Inserts(pc) || Offers(pc) || Refers(pc) || pc.GetRelease? ==> pc.node == s.threads[t].node
    requires ThreadOk(Goto(s, t, pc), g, t)
    ensures Inv(Goto(s, t, pc), g)
  {
    var s' := Goto(s, t, pc);
    forall m | m in s'.refs ensures NodeOk(s', g, m) {
      assert NodeOk(s, g, m);
      MoveHeld(s, t, pc, m);
    }
    forall u: nat | u < |s'.threads| ensures ThreadOk(s', g, u) {
      if u != t { assert ThreadOk(s, g, u); }
    }
  }

  lemma HeadKnown(s: State, g: Ghosts)
    requires Inv(s, g)
    ensures Known(s, s.head)
  {
    if g.list != [] { assert g.list[0] in g.list; }
  }

  lemma InsertLink(s: State, g: Ghosts, t: nat, n: Node, h: Ptr, k: Cont)
    requires Inv(s, g) && t < |s.threads| && s.threads[t] == AddNext(n, h, k)
    ensures Inv(Goto(s, t, AddRefs(n, h, k)).(next := s.next[n := h]), g)
  {
    var s' := Goto(s, t, AddRefs(n, h, k)).(next := s.next[n := h]);
    assert ThreadOk(s, g, t) && NodeOk(s, g, n);
    ChainFrame(s.head, s.next, g.list, n, h);
    forall m | m in s'.refs ensures NodeOk(s', g, m) {
      assert NodeOk(s, g, m);
      MoveHeld(s, t, s'.threads[t], m);
    }
    LinkThreads(s, g, t, n, h, k, s');
  }

  lemma LinkThreads(s: State, g: Ghosts, t: nat, n: Node, h: Ptr, k: Cont, s': State)
    requires Inv(s, g) && t < |s.threads| && s.threads[t] == AddNext(n, h, k)
    requires s' == Goto(s, t, AddRefs(n, h, k)).(next := s.next[n := h])
    ensures s'.next.Keys == s'.refs.Keys
    ensures forall u: nat | u < |s'.threads| :: ThreadOk(s', g, u)
  {
    assert ThreadOk(s, g, t) && NodeOk(s, g, n);
    NobodyHolds(s, n);
    forall u: nat | u < |s'.threads| ensures ThreadOk(s', g, u) {
      assert ThreadOk(s, g, u);
      assert !Holds(s.threads[u], n);
    }
  }

  lemma InsertRefs(s: State, g: Ghosts, t: nat, n: Node, h: Ptr, k: Cont) returns (g': Ghosts)
    requires Inv(s, g) && t < |s.threads| && s.threads[t] == AddRefs(n, h, k)
    ensures Inv(SetRefs(s, t, n, 1, AddCas(n, h, k)), g')
  {
    var s' := SetRefs(s, t, n, 1, AddCas(n, h, k));
    assert ThreadOk(s, g, t) && NodeOk(s, g, n);
    g' := g.(phase := g.phase[n := Offer(t)]);
    InsertRefsNode(s, g, t, n, h, k, s', g');
    WordKeeps(s, g, t, n, s', g');
  }

  lemma InsertRefsNode(s: State, g: Ghosts, t: nat, n: Node, h: Ptr, k: Cont, s': State, g': Ghosts)
    requires t < |s.threads| && s.threads[t] == AddRefs(n, h, k)
    requires s.next.Keys == s.refs.Keys == g.phase.Keys && ThreadOk(s, g, t) && NodeOk(s, g, n)
    requires s' == SetRefs(s, t, n, 1, AddCas(n, h, k)) && g' == g.(phase := g.phase[n := Offer(t)])
    ensures NodeOk(s', g', n) && ThreadOk(s', g', t) && g.phase[n] == Insert(t)
  {
    MoveHeld(s, t, s'.threads[t], n);
  }

  lemma OfferWins(s: State, g: Ghosts, t: nat, n: Node, k: Cont) returns (g': Ghosts)
    requires Inv(s, g) && t < |s.threads| && s.threads[t] == AddCas(n, s.head, k)
    ensures Inv(Goto(s, t, Resume(k)).(head := At(n)), g')
  {
    var s' := Goto(s, t, Resume(k)).(head := At(n));
    g' := Ghosts([n] + g.list, g.phase[n := Listed]);
    assert ThreadOk(s, g, t) && NodeOk(s, g, n);
    OfferWinsNode(s, g, t, n, k, s', g');
    WordKeeps(s, g, t, n, s', g');
  }

  lemma OfferWinsNode(s: State, g: Ghosts, t: nat, n: Node, k: Cont, s': State, g': Ghosts)
    requires t < |s.threads| && s.threads[t] == AddCas(n, s.head, k)
    requires s.next.Keys == s.refs.Keys == g.phase.Keys && ThreadOk(s, g, t) && NodeOk(s, g, n)
    requires Chain(s.head, s.next, g.list) && NoRepeats(g.list)
    requires s' == Goto(s, t, Resume(k)).(head := At(n))
    requires g' == Ghosts([n] + g.list, g.phase[n := Listed])
    ensures NodeOk(s', g', n) && ThreadOk(s', g', t) && g.phase[n] == Offer(t) && WordChange(s, g, t, n, s', g')
    ensures Chain(s'.head, s'.next, g'.list) && NoRepeats(g'.list)
  {
    assert g'.list[1..] == g.list;
    MoveHeld(s, t, s'.threads[t], n);
  }

  /** The 32-bit word of a node never overflows: the updates are exact. */
  lemma Exact(s: State, g: Ghosts, n: Node)
    requires Inv(s, g) && n in s.refs
    ensures 0 <= Total(s.threads, Holding(n)) <= MAX_THREADS
    ensures Base(g.phase[n]) <= s.refs[n] <= Base(g.phase[n]) + MAX_THREADS
  {
    assert NodeOk(s, g, n);
    HeldBound(s, n);
  }

  lemma LosesIs(s: State, g: Ghosts, t: nat, n: Node, h: Ptr, k: Cont, s': State)
    requires Inv(s, g) && t < |s.threads| && s.threads[t] == AddDefer(n, h, k) && AddStep(s, t, s')
    ensures s' == SetRefs(s, t, n, s.refs[n] - 1 + SHOULD_BE_ON_FREELIST,
                          if s.refs[n] == 1 then AddNext(n, h, k) else Resume(k))
    ensures s.refs[n] >= 1
  {
    assert ThreadOk(s, g, t) && NodeOk(s, g, n);
    Exact(s, g, n);
  }

  lemma OfferLoses(s: State, g: Ghosts, t: nat, n: Node, h: Ptr, k: Cont, s': State) returns (g': Ghosts)
    requires Inv(s, g) && t < |s.threads| && s.threads[t] == AddDefer(n, h, k) && AddStep(s, t, s')
    ensures Inv(s', g')
  {
    assert ThreadOk(s, g, t) && NodeOk(s, g, n);
    LosesIs(s, g, t, n, h, k, s');
    var v := s.refs[n] - 1 + SHOULD_BE_ON_FREELIST;
    g' := Mark(s, g, t, n, v, s'.threads[t], if s.refs[n] == 1 then Insert(t) else Deferred);
  }

  /** Thread t stops offering n, or starts adding it, leaving it marked. */
  lemma Mark(s: State, g: Ghosts, t: nat, n: Node, v: int, pc: Pc, phase: Phase) returns (g': Ghosts)
    requires Inv(s, g) && t < |s.threads| && n in s.refs
    requires g.phase[n] == Offer(t) && Offers(s.threads[t]) && s.threads[t].node == n
    requires v == s.refs[n] - 1 + SHOULD_BE_ON_FREELIST
    requires if phase.Insert? then pc.AddNext? && pc.node == n && phase.who == t && s.refs[n] == 1
             else phase.Deferred? && s.refs[n] > 1 && !Inserts(pc) && !Offers(pc) && !Refers(pc) && !pc.GetRelease?
    requires ThreadOk(Goto(s, t, pc), g.(phase := g.phase[n := phase]), t)
    ensures Inv(SetRefs(s, t, n, v, pc), g')
  {
    var s' := SetRefs(s, t, n, v, pc);
    g' := g.(phase := g.phase[n := phase]);
    assert NodeOk(s, g, n);
    MoveHeld(s, t, pc, n);
    assert NodeOk(s', g', n);
    WordKeeps(s, g, t, n, s', g');
  }

  lemma GrabRef(s: State, g: Ghosts, t: nat, n: Node)
    requires Inv(s, g) && t < |s.threads| && n in s.refs && s.threads[t] == GetRef(n, s.refs[n])
    ensures Inv(SetRefs(s, t, n, Word(s.refs[n] + 1), GetNext(n)), g)
  {
    var s' := SetRefs(s, t, n, Word(s.refs[n] + 1), GetNext(n));
    assert ThreadOk(s, g, t) && NodeOk(s, g, n);
    HeldBound(s, n);
    MoveHeld(s, t, s'.threads[t], n);
    WordKeeps(s, g, t, n, s', g);
  }

  lemma Unlink(s: State, g: Ghosts, t: nat, n: Node, nx: Ptr) returns (g': Ghosts)
    requires Inv(s, g) && t < |s.threads| && s.threads[t] == GetCas(n, nx) && s.head == At(n)
    ensures Inv(Goto(s, t, GetRelease(n)).(head := nx), g')
  {
    var s' := Goto(s, t, GetRelease(n)).(head := nx);
    g' := Ghosts(g.list[1..], g.phase[n := Take(t)]);
    assert ThreadOk(s, g, t) && NodeOk(s, g, n);
    UnlinkNode(s, g, t, n, nx, s', g');
    WordKeeps(s, g, t, n, s', g');
  }

  lemma UnlinkNode(s: State, g: Ghosts, t: nat, n: Node, nx: Ptr, s': State, g': Ghosts)
    requires t < |s.threads| && s.threads[t] == GetCas(n, nx) && s.head == At(n)
    requires s.next.Keys == s.refs.Keys == g.phase.Keys && ThreadOk(s, g, t) && NodeOk(s, g, n)
    requires Chain(s.head, s.next, g.list) && NoRepeats(g.list)
    requires s' == Goto(s, t, GetRelease(n)).(head := nx)
    requires g.list != [] && g' == Ghosts(g.list[1..], g.phase[n := Take(t)])
    ensures NodeOk(s', g', n) && ThreadOk(s', g', t) && g.phase[n] == Listed
    ensures g.list == [n] + g'.list
    ensures Chain(s'.head, s'.next, g'.list) && NoRepeats(g'.list)
  {
    assert g.list == [n] + g'.list;
    MoveHeld(s, t, s'.threads[t], n);
  }

  lemma Release(s: State, g: Ghosts, t: nat, n: Node, s': State) returns (g': Ghosts)
    requires Inv(s, g) && t < |s.threads| && GetStep(s, t, s') && s.threads[t] == GetRelease(n)
    ensures Inv(s', g')
  {
    assert ThreadOk(s, g, t) && NodeOk(s, g, n);
    Exact(s, g, n);
    g' := g.(phase := g.phase[n := Owned]);
    ReleaseNode(s, g, t, n, s', g');
    WordKeeps(s, g, t, n, s', g');
  }

  lemma ReleaseNode(s: State, g: Ghosts, t: nat, n: Node, s': State, g': Ghosts)
    requires t < |s.threads| <= MAX_THREADS && GetStep(s, t, s') && s.threads[t] == GetRelease(n)
    requires s.next.Keys == s.refs.Keys == g.phase.Keys && ThreadOk(s, g, t) && NodeOk(s, g, n)
    requires g' == g.(phase := g.phase[n := Owned])
    ensures NodeOk(s', g', n) && ThreadOk(s', g', t)
    ensures s'.refs == s.refs[n := s.refs[n] - 2] && s'.owned == s.owned[n := 1]
  {
    HeldBound(s, n);
    MoveHeld(s, t, Idle, n);
  }

  lemma Drop(s: State, g: Ghosts, t: nat, n: Node, h: Ptr, s': State) returns (g': Ghosts)
    requires Inv(s, g) && t < |s.threads| && GetStep(s, t, s') && s.threads[t] == GetDrop(n, h)
    ensures Inv(s', g')
  {
    var p := if s.refs[n] == SHOULD_BE_ON_FREELIST + 1 then Insert(t) else g.phase[n];
    g' := g.(phase := g.phase[n := p]);
    assert ThreadOk(s, g, t) && NodeOk(s, g, n);
    DropNode(s, g, t, n, h, s', g');
    WordKeeps(s, g, t, n, s', g');
  }

  lemma DropNode(s: State, g: Ghosts, t: nat, n: Node, h: Ptr, s': State, g': Ghosts)
    requires t < |s.threads| <= MAX_THREADS && GetStep(s, t, s') && s.threads[t] == GetDrop(n, h)
    requires s.next.Keys == s.refs.Keys == g.phase.Keys && ThreadOk(s, g, t) && NodeOk(s, g, n)
    requires g' == g.(phase :=
      g.phase[n := if s.refs[n] == SHOULD_BE_ON_FREELIST + 1 then Insert(t) else g.phase[n]])
    ensures NodeOk(s', g', n) && ThreadOk(s', g', t)
    ensures s'.refs == s.refs[n := s.refs[n] - 1] && s'.owned == s.owned
    ensures s.refs[n] == SHOULD_BE_ON_FREELIST + 1 ==> g.phase[n] == Deferred
    ensures OnlyAt(s'.threads[t], n)
  {
    HeldBound(s, n);
    MoveHeld(s, t, s'.threads[t], n);
  }

  lemma CallAdd(s: State, g: Ghosts, t: nat, n: Node, s': State) returns (g': Ghosts)
    requires Inv(s, g) && t < |s.threads| && s.threads[t].Idle? && AddCall(s, t, n, s')
    ensures Inv(s', g')
  {
    Exact(s, g, n);
    var p := if s.refs[n] == 0 then Insert(t) else Deferred;
    g' := g.(phase := g.phase[n := p]);
    assert NodeOk(s, g, n);
    CallNode(s, g, t, n, s', p);
    WordKeeps(s, g, t, n, s', g');
  }

  lemma CallNode(s: State, g: Ghosts, t: nat, n: Node, s': State, p: Phase)
    requires t < |s.threads| <= MAX_THREADS && s.threads[t].Idle? && AddCall(s, t, n, s')
    requires s.next.Keys == s.refs.Keys == g.phase.Keys && NodeOk(s, g, n)
    requires p == if s.refs[n] == 0 then Insert(t) else Deferred
    ensures NodeOk(s', g.(phase := g.phase[n := p]), n)
    ensures ThreadOk(s', g.(phase := g.phase[n := p]), t)
    ensures g.phase[n].Owned? && s'.refs[n] == s.refs[n] + SHOULD_BE_ON_FREELIST
  {
    HeldBound(s, n);
    MoveHeld(s, t, s'.threads[t], n);
  }

  lemma AllocateKeeps(s: State, g: Ghosts, n: Node, s': State) returns (g': Ghosts)
    requires Inv(s, g) && Allocate(s, n, s')
    ensures Inv(s', g')
  {
    g' := g.(phase := g.phase[n := Owned]);
    ChainFrame(s.head, s.next, g.list, n, Null);
    NewNodeThreads(s, g, n, s', g');
    NewNodeNodes(s, g, n, s', g');
  }

  lemma NewNodeNodes(s: State, g: Ghosts, n: Node, s': State, g': Ghosts)
    requires s.next.Keys == s.refs.Keys == g.phase.Keys && n !in g.list && s.owned[n] == 0
    requires Allocate(s, n, s') && g' == g.(phase := g.phase[n := Owned])
    requires forall m | m in s.refs :: NodeOk(s, g, m)
    requires forall t: nat | t < |s.threads| :: !Holds(s.threads[t], n)
    ensures forall m | m in s'.refs :: NodeOk(s', g', m)
  {
    TotalZero(s.threads, Holding(n));
    forall m | m in s'.refs ensures NodeOk(s', g', m) {
      if m != n { assert NodeOk(s, g, m); }
    }
  }

  /** No thread knows the node that has just been allocated. */
  lemma NewNodeThreads(s: State, g: Ghosts, n: Node, s': State, g': Ghosts)
    requires Inv(s, g) && Allocate(s, n, s') && g' == g.(phase := g.phase[n := Owned])
    ensures forall t: nat | t < |s'.threads| :: ThreadOk(s', g', t) && !Holds(s.threads[t], n)
  {
    forall t: nat | t < |s'.threads| ensures ThreadOk(s', g', t) && !Holds(s.threads[t], n) {
      assert ThreadOk(s, g, t);
    }
  }

  lemma AddStepKeeps(s: State, g: Ghosts, t: nat, s': State) returns (g': Ghosts)
    requires Inv(s, g) && t < |s.threads| && AddStep(s, t, s')
    ensures Inv(s', g')
  {
    g' := g;
    match s.threads[t]
    case AddHead(n, k) => SeeHead(s, g, t, s');
    case AddNext(n, h, k) => InsertLink(s, g, t, n, h, k);
    case AddRefs(n, h, k) => g' := InsertRefs(s, g, t, n, h, k);
    case AddCas(n, h, k) =>
      if s.head == h { g' := OfferWins(s, g, t, n, k); } else { SeeHead(s, g, t, s'); }
    case AddDefer(n, h, k) => g' := OfferLoses(s, g, t, n, h, k, s');
  }

  lemma SeeHead(s: State, g: Ghosts, t: nat, s': State)
    requires Inv(s, g) && t < |s.threads| && AddStep(s, t, s')
    requires s.threads[t].AddHead? || (s.threads[t].AddCas? && s.head != s.threads[t].seen)
    ensures Inv(s', g)
  {
    assert ThreadOk(s, g, t);
    HeadKnown(s, g);
    MoveKeeps(s, g, t, s'.threads[t]);
  }

  lemma GetStepKeeps(s: State, g: Ghosts, t: nat, s': State) returns (g': Ghosts)
    requires Inv(s, g) && t < |s.threads| && GetStep(s, t, s')
    ensures Inv(s', g')
  {
    g' := g;
    match s.threads[t]
    case GetHead => LookHead(s, g, t, s');
    case GetRefs(n) => LookRefs(s, g, t, n, s');
    case GetRef(n, r) => TryRef(s, g, t, n, r, s');
    case GetNext(n) => LookNext(s, g, t, n, s');
    case GetCas(n, nx) => g' := TryUnlink(s, g, t, n, nx, s');
    case GetRelease(n) => g' := Release(s, g, t, n, s');
    case GetDrop(n, h) => g' := Drop(s, g, t, n, h, s');
  }

  lemma LookHead(s: State, g: Ghosts, t: nat, s': State)
    requires Inv(s, g) && t < |s.threads| && GetStep(s, t, s') && s.threads[t] == GetHead
    ensures Inv(s', g)
  {
    HeadKnown(s, g);
    MoveKeeps(s, g, t, LoopTest(s.head));
  }

  lemma LookNext(s: State, g: Ghosts, t: nat, n: Node, s': State)
    requires Inv(s, g) && t < |s.threads| && GetStep(s, t, s') && s.threads[t] == GetNext(n)
    ensures Inv(s', g)
  {
    assert ThreadOk(s, g, t);
    MoveKeeps(s, g, t, GetCas(n, s.next[n]));
  }

  lemma TryRef(s: State, g: Ghosts, t: nat, n: Node, r: int, s': State)
    requires Inv(s, g) && t < |s.threads| && GetStep(s, t, s') && s.threads[t] == GetRef(n, r)
    ensures Inv(s', g)
  {
    if s.refs[n] == r { GrabRef(s, g, t, n); } else { RefMissed(s, g, t, n, r, s'); }
  }

  lemma RefMissed(s: State, g: Ghosts, t: nat, n: Node, r: int, s': State)
    requires Inv(s, g) && t < |s.threads| && GetStep(s, t, s') && s.threads[t] == GetRef(n, r) && s.refs[n] != r
    ensures Inv(s', g)
  {
    MoveKeeps(s, g, t, GetHead);
  }

  lemma TryUnlink(s: State, g: Ghosts, t: nat, n: Node, nx: Ptr, s': State) returns (g': Ghosts)
    requires Inv(s, g) && t < |s.threads| && GetStep(s, t, s') && s.threads[t] == GetCas(n, nx)
    ensures Inv(s', g')
  {
    if s.head == At(n) {
      g' := Unlink(s, g, t, n, nx);
    } else {
      assert ThreadOk(s, g, t);
      HeadKnown(s, g);
      g' := g;
      MoveKeeps(s, g, t, GetDrop(n, s.head));
    }
  }

  lemma LookRefs(s: State, g: Ghosts, t: nat, n: Node, s': State)
    requires Inv(s, g) && t < |s.threads| && GetStep(s, t, s') && s.threads[t] == GetRefs(n)
    ensures Inv(s', g)
  {
    assert ThreadOk(s, g, t) && NodeOk(s, g, n);
    HeldBound(s, n);
    MoveKeeps(s, g, t, s'.threads[t]);
  }

  /** Every atomic step of every thread keeps the invariant. */
  lemma StepKeeps(s: State, g: Ghosts, s': State) returns (g': Ghosts)
    requires Inv(s, g) && Next(s, s')
    ensures Inv(s', g')
  {
    if t: nat :| ThreadStep(s, t, s') {
      if CallStep(s, t, s') {
        if n :| AddCall(s, t, n, s') {
          g' := CallAdd(s, g, t, n, s');
        } else {
          g' := g;
          MoveKeeps(s, g, t, GetHead);
        }
      } else if AddStep(s, t, s') {
        g' := AddStepKeeps(s, g, t, s');
      } else {
        g' := GetStepKeeps(s, g, t, s');
      }
    } else {
      var n :| Allocate(s, n, s');
      g' := AllocateKeeps(s, g, n, s');
    }
  }

  // ------------------------------------------------------------------ main results

  /** The threads other than the one named by the phase have no stake in the node. */
  lemma Stakes(s: State, g: Ghosts, n: Node)
    requires Inv(s, g) && n in s.refs
    ensures forall u: nat | u < |s.threads| ::
      && Inserting(s.threads[u], n) == (g.phase[n] == Insert(u))
      && Offering(s.threads[u], n) == (g.phase[n] == Offer(u))
      && Taking(s.threads[u], n) == (g.phase[n] == Take(u))
  {
    assert NodeOk(s, g, n);
    forall u: nat | u < |s.threads|
      ensures Inserting(s.threads[u], n) == (g.phase[n] == Insert(u))
      ensures Offering(s.threads[u], n) == (g.phase[n] == Offer(u))
      ensures Taking(s.threads[u], n) == (g.phase[n] == Take(u))
    {
      assert ThreadOk(s, g, u);
    }
  }

  /** The totals of the observed weights, phase by phase. */
  lemma PhaseTotals(s: State, g: Ghosts, n: Node)
    requires Inv(s, g) && n in s.refs
    ensures var p := g.phase[n];
      && Total(s.threads, Adding(n)) == One(p.Insert? || p.Offer?)
      && Total(s.threads, Busy(n)) == One(p.Insert? || p.Offer? || p.Take?)
      && Total(s.threads, RefsFrom(n)) ==
         Total(s.threads, Holding(n)) + One(p.Offer?) + 2 * One(p.Take?)
  {
    assert NodeOk(s, g, n);
    Stakes(s, g, n);
    StakeTotals(s.threads, g.phase[n], n);
  }

  lemma StakeTotals(ts: seq<Pc>, p: Phase, n: Node)
    requires forall u: nat | u < |ts| ::
      && Inserting(ts[u], n) == (p == Insert(u))
      && Offering(ts[u], n) == (p == Offer(u))
      && Taking(ts[u], n) == (p == Take(u))
    requires p.Insert? || p.Offer? || p.Take? ==> p.who < |ts|
    ensures Total(ts, Adding(n)) == One(p.Insert? || p.Offer?)
    ensures Total(ts, Busy(n)) == One(p.Insert? || p.Offer? || p.Take?)
    ensures Total(ts, RefsFrom(n)) == Total(ts, Holding(n)) + One(p.Offer?) + 2 * One(p.Take?)
  {
    if p.Insert? || p.Offer? || p.Take? {
      TotalDiffer(ts, RefsFrom(n), Holding(n), p.who);
      TotalSingle(ts, Adding(n), p.who);
      TotalSingle(ts, Busy(n), p.who);
    } else {
      TotalSame(ts, RefsFrom(n), Holding(n));
      TotalZero(ts, Adding(n));
      TotalZero(ts, Busy(n));
    }
  }

  lemma NodeIsSafe(s: State, g: Ghosts, n: Node)
    requires Inv(s, g) && n in s.refs
    ensures NodeSafe(s, g.list, n)
  {
    assert NodeOk(s, g, n);
    Exact(s, g, n);
    PhaseTotals(s, g, n);
  }

  lemma {:induction false} ReachableInv(tr: seq<State>, i: nat) returns (g: Ghosts)
    requires Execution(tr) && i < |tr|
    ensures Inv(tr[i], g)
  {
    if i == 0 {
      g := Ghosts([], map[]);
    } else {
      var g0 := ReachableInv(tr, i - 1);
      g := StepKeeps(tr[i - 1], g0, tr[i]);
    }
  }

  /** Ownership and reference counts, in every state of every execution. */
  lemma AlwaysSafe(tr: seq<State>, i: nat)
    requires Execution(tr) && i < |tr|
    ensures Safe(tr[i])
  {
    var g := ReachableInv(tr, i);
    forall n | n in tr[i].refs ensures NodeSafe(tr[i], g.list, n) {
      NodeIsSafe(tr[i], g, n);
    }
  }

  /** No ABA: when the head exchange of `try_get` is about to succeed, the node is first
      on the list, unmarked and unowned, and the successor read earlier still follows it;
      the exchange removes exactly that node. */
  lemma HeadExchangeSound(tr: seq<State>, i: nat, t: nat, n: Node, nx: Ptr, l: seq<Node>)
    requires Execution(tr) && i + 1 < |tr|
    requires t < |tr[i].threads| && tr[i].threads[t] == GetCas(n, nx) && tr[i].head == At(n)
    requires ThreadStep(tr[i], t, tr[i + 1]) && Chain(tr[i].head, tr[i].next, l)
    ensures n in tr[i].next && tr[i].next[n] == nx
    ensures n in tr[i].refs && !Marked(tr[i].refs[n]) && tr[i].owned[n] == 0
    ensures l != [] && l[0] == n && Chain(tr[i + 1].head, tr[i + 1].next, l[1..])
  {
    var g := ReachableInv(tr, i);
    assert ThreadOk(tr[i], g, t) && NodeOk(tr[i], g, n);
    Exact(tr[i], g, n);
    assert n == g.list[0];
  }

  /** A link never changes while some `try_get` holds a reference to its node. */
  lemma LinkStable(tr: seq<State>, i: nat, n: Node)
    requires Execution(tr) && i + 1 < |tr| && n in tr[i].refs
    requires Total(tr[i].threads, Holding(n)) > 0
    ensures n in tr[i].next && n in tr[i + 1].next && tr[i + 1].next[n] == tr[i].next[n]
  {
    var g := ReachableInv(tr, i);
    StepLinkStable(tr[i], g, tr[i + 1], n);
  }

  lemma StepLinkStable(s: State, g: Ghosts, s': State, n: Node)
    requires Inv(s, g) && Next(s, s') && n in s.refs && Total(s.threads, Holding(n)) > 0
    ensures n in s'.next && s'.next[n] == s.next[n]
  {
    assert NodeOk(s, g, n);
    if t: nat :| ThreadStep(s, t, s') {
      assert ThreadOk(s, g, t);
      OnlyInsertsLink(s, t, s');
    }
  }

  lemma OnlyInsertsLink(s: State, t: nat, s': State)
    requires ThreadStep(s, t, s')
    ensures s'.next == s.next ||
      (s.threads[t].AddNext? && s'.next == s.next[s.threads[t].node := s.threads[t].seen])
  {
    if !CallStep(s, t, s') && !AddStep(s, t, s') {
      assert GetStep(s, t, s');
    }
  }

  /** When no call is in progress every node is with exactly one client or on the list
      exactly once: deferred additions are neither dropped nor done twice. */
  lemma QuiescentNoLoss(tr: seq<State>, i: nat)
    requires Execution(tr) && i < |tr|
    requires forall t | 0 <= t < |tr[i].threads| :: tr[i].threads[t].Idle?
    ensures exists l ::
      && Chain(tr[i].head, tr[i].next, l) && NoRepeats(l)
      && forall n | n in tr[i].refs :: tr[i].owned[n] + One(n in l) == 1 && tr[i].refs[n] == One(n in l)
  {
    var s := tr[i];
    var g := ReachableInv(tr, i);
    forall n | n in s.refs ensures s.owned[n] + One(n in g.list) == 1 && s.refs[n] == One(n in g.list) {
      assert NodeOk(s, g, n);
      TotalZero(s.threads, Holding(n));
    }
  }

  // ------------------------------------------------------------------ what a call does

  /** The steps from i to j are all thread t's. */
  ghost predicate Runs(tr: seq<State>, i: nat, j: nat, t: nat)
  {
    && i <= j < |tr| && (forall k | i <= k <= j :: t < |tr[k].threads|)
    && forall k | i <= k < j :: ThreadStep(tr[k], t, tr[k + 1])
  }

  ghost predicate AllIdle(s: State) { forall u | 0 <= u < |s.threads| :: s.threads[u].Idle? }

  lemma {:induction false} ChainUnique(p: Ptr, next: map<Node, Ptr>, l: seq<Node>, l': seq<Node>)
    requires Chain(p, next, l) && Chain(p, next, l')
    ensures l == l'
    decreases |l|
  {
    if l != [] {
      ChainUnique(next[l[0]], next, l[1..], l'[1..]);
      assert l == [l[0]] + l[1..] && l' == [l'[0]] + l'[1..];
    }
  }

  lemma IdleNode(s: State, g: Ghosts, n: Node)
    requires Inv(s, g) && AllIdle(s) && n in s.refs
    ensures s.refs[n] == One(n in g.list) && s.owned[n] == One(n !in g.list)
  {
    assert NodeOk(s, g, n);
    TotalZero(s.threads, Holding(n));
  }

  /** A `try_get` by itself takes the first node off the list and gives it to its caller,
      with no reference left; it comes back with nothing exactly when the list is empty. */
  lemma AloneGets(tr: seq<State>, i: nat, j: nat, t: nat, l: seq<Node>)
    requires Execution(tr) && Runs(tr, i, j, t) && j >= i + 2 && AllIdle(tr[i]) && tr[i + 1].threads[t].GetHead?
    requires Chain(tr[i].head, tr[i].next, l)
    ensures l == [] ==> tr[i + 2] == tr[i]
    ensures l != [] && j >= i + 7 ==>
      && tr[i + 7].threads == tr[i].threads && tr[i + 7].owned == tr[i].owned + multiset{l[0]}
      && Chain(tr[i + 7].head, tr[i + 7].next, l[1..])
      && l[0] in tr[i].refs && tr[i + 7].refs == tr[i].refs[l[0] := 0]
  {
    var g := ReachableInv(tr, i);
    ChainUnique(tr[i].head, tr[i].next, l, g.list);
    assert ThreadStep(tr[i], t, tr[i + 1]) && ThreadStep(tr[i + 1], t, tr[i + 2]);
    if l == [] {
      assert tr[i + 2].threads == tr[i].threads;
    } else if j >= i + 7 {
      IdleNode(tr[i], g, l[0]);
      GetsFirst(tr, i, t, l[0], tr[i].next[l[0]]);
    }
  }

  lemma GetsFirst(tr: seq<State>, i: nat, t: nat, n: Node, nx: Ptr)
    requires Runs(tr, i, i + 7, t) && tr[i].threads[t].Idle? && tr[i + 1] == Goto(tr[i], t, GetHead)
    requires tr[i].head == At(n) && n in tr[i].next && tr[i].next[n] == nx && n in tr[i].refs && tr[i].refs[n] == 1
    ensures tr[i + 7].threads == tr[i].threads && tr[i + 7].owned == tr[i].owned + multiset{n}
    ensures tr[i + 7].head == nx && tr[i + 7].next == tr[i].next && tr[i + 7].refs == tr[i].refs[n := 0]
  {
    var s := tr[i];
    GetsRef(tr, i, t, n);
    assert ThreadStep(tr[i + 4], t, tr[i + 5]);
    assert tr[i + 5] == Goto(tr[i + 4], t, GetCas(n, nx));
    assert ThreadStep(tr[i + 5], t, tr[i + 6]);
    assert tr[i + 6] == Goto(tr[i + 5], t, GetRelease(n)).(head := nx);
    assert ThreadStep(tr[i + 6], t, tr[i + 7]);
    assert tr[i + 7].threads == s.threads[t := Idle] == s.threads;
  }

  lemma GetsRef(tr: seq<State>, i: nat, t: nat, n: Node)
    requires Runs(tr, i, i + 4, t) && tr[i].threads[t].Idle? && tr[i + 1] == Goto(tr[i], t, GetHead)
    requires tr[i].head == At(n) && n in tr[i].refs && tr[i].refs[n] == 1
    ensures tr[i + 4] == SetRefs(tr[i], t, n, 2, GetNext(n))
  {
    assert ThreadStep(tr[i + 1], t, tr[i + 2]);
    assert tr[i + 2] == Goto(tr[i], t, GetRefs(n));
    assert ThreadStep(tr[i + 2], t, tr[i + 3]);
    assert tr[i + 3] == Goto(tr[i], t, GetRef(n, 1));
    assert ThreadStep(tr[i + 3], t, tr[i + 4]);
  }

  /** An `add` by itself puts the caller's node first on the list. */
  lemma AloneAdds(tr: seq<State>, i: nat, t: nat, n: Node, l: seq<Node>)
    requires Execution(tr) && Runs(tr, i, i + 5, t) && AllIdle(tr[i]) && AddCall(tr[i], t, n, tr[i + 1])
    requires Chain(tr[i].head, tr[i].next, l)
    ensures tr[i + 5].threads == tr[i].threads && tr[i + 5].owned == tr[i].owned - multiset{n}
    ensures Chain(tr[i + 5].head, tr[i + 5].next, [n] + l) && tr[i + 5].refs == tr[i].refs[n := 1]
  {
    var g := ReachableInv(tr, i);
    var s := tr[i];
    ChainUnique(s.head, s.next, l, g.list);
    IdleNode(s, g, n);
    AddsFirst(tr, i, t, n);
    ChainFrame(s.head, s.next, l, n, s.head);
    assert ([n] + l)[1..] == l;
  }

  lemma AddsFirst(tr: seq<State>, i: nat, t: nat, n: Node)
    requires Runs(tr, i, i + 5, t) && tr[i].threads[t].Idle? && AddCall(tr[i], t, n, tr[i + 1])
    requires tr[i].refs[n] == 0
    ensures tr[i + 5].threads == tr[i].threads && tr[i + 5].owned == tr[i].owned - multiset{n}
    ensures tr[i + 5].head == At(n) && tr[i + 5].next == tr[i].next[n := tr[i].head]
    ensures tr[i + 5].refs == tr[i].refs[n := 1]
  {
    var s, h := tr[i], tr[i].head;
    assert ThreadStep(tr[i + 1], t, tr[i + 2]);
    assert tr[i + 2] == Goto(tr[i + 1], t, AddNext(n, h, Return));
    assert ThreadStep(tr[i + 2], t, tr[i + 3]);
    assert tr[i + 3] == Goto(tr[i + 2], t, AddRefs(n, h, Return)).(next := s.next[n := h]);
    assert ThreadStep(tr[i + 3], t, tr[i + 4]);
    assert tr[i + 4] == SetRefs(tr[i + 3], t, n, 1, AddCas(n, h, Return));
    assert ThreadStep(tr[i + 4], t, tr[i + 5]);
    assert tr[i + 5].threads == s.threads[t := Idle] == s.threads;
  }

  predicate Adds(pc: Pc) { Inserts(pc) || Offers(pc) }

  /** The thread is in a `try_get`, possibly inserting a node for another. */
  predicate Getting(pc: Pc) { !pc.Idle? && (Adds(pc) ==> pc.k.Retry?) }

  /** It will go on with a head that it saw as null. */
  predicate SawNull(pc: Pc) { (pc.GetDrop? && pc.seen.Null?) || (Adds(pc) && pc.k == Retry(Null)) }

  lemma GettingStep(s: State, t: nat, s': State)
    requires ThreadStep(s, t, s') && Getting(s.threads[t])
    ensures |s'.threads| == |s.threads|
    ensures if s'.threads[t].Idle? then s.threads[t].GetRelease? || SawNull(s.threads[t]) || s.head.Null?
            else Getting(s'.threads[t]) && (SawNull(s'.threads[t]) ==> SawNull(s.threads[t]) || s.head.Null?)
    ensures s.threads[t].GetRelease? ==> s'.owned == s.owned + multiset{s.threads[t].node}
  {
    if AddStep(s, t, s') {
      assert Adds(s.threads[t]);
    }
  }

  lemma OthersStay(s: State, t: nat, s': State)
    requires Next(s, s') && t < |s.threads|
    ensures |s'.threads| == |s.threads| && (ThreadStep(s, t, s') || s'.threads[t] == s.threads[t])
  {
    if u: nat :| ThreadStep(s, u, s') {
      StepMoves(s, u, s');
    }
  }

  lemma StepMoves(s: State, u: nat, s': State)
    requires ThreadStep(s, u, s')
    ensures |s'.threads| == |s.threads| && s'.threads == s.threads[u := s'.threads[u]]
  {
    if CallStep(s, u, s') {
    } else if AddStep(s, u, s') {
    } else {
      assert GetStep(s, u, s');
    }
  }

  /** What any step, of this thread or another, does to a thread inside `try_get`. */
  ghost predicate GetsOn(s: State, t: nat, s': State)
  {
    && t < |s.threads| == |s'.threads|
    && (Getting(s.threads[t]) && !s'.threads[t].Idle? ==>
          Getting(s'.threads[t]) && (SawNull(s'.threads[t]) ==> SawNull(s.threads[t]) || s.head.Null?))
    && (Getting(s.threads[t]) && s'.threads[t].Idle? ==>
          || SawNull(s.threads[t]) || s.head.Null?
          || (s.threads[t].GetRelease? && s'.owned == s.owned + multiset{s.threads[t].node}))
  }

  lemma GettingNext(s: State, t: nat, s': State)
    requires Next(s, s') && t < |s.threads|
    ensures GetsOn(s, t, s')
  {
    OthersStay(s, t, s');
    if ThreadStep(s, t, s') && Getting(s.threads[t]) { GettingStep(s, t, s'); }
  }

  /** The list was empty at some point from j + 1 to i. */
  ghost predicate EmptyAt(tr: seq<State>, j: nat, i: nat)
  {
    exists k :: j < k <= i < |tr| && tr[k].head.Null?
  }

  lemma {:induction false} NullWasRead(tr: seq<State>, j: nat, i: nat, t: nat)
    requires j < i < |tr| && t < |tr[j + 1].threads| && tr[j + 1].threads[t].GetHead?
    requires forall k | j < k < i :: GetsOn(tr[k], t, tr[k + 1])
    requires forall k | j < k <= i :: t < |tr[k].threads| && !tr[k].threads[t].Idle?
    ensures Getting(tr[i].threads[t]) && (SawNull(tr[i].threads[t]) ==> EmptyAt(tr, j, i))
  {
    if i > j + 1 {
      NullWasRead(tr, j, i - 1, t);
      assert GetsOn(tr[i - 1], t, tr[i]);
      EmptyMore(tr, j, i);
    }
  }

  lemma EmptyMore(tr: seq<State>, j: nat, i: nat)
    requires j + 1 < i < |tr|
    ensures EmptyAt(tr, j, i - 1) || tr[i - 1].head.Null? ==> EmptyAt(tr, j, i)
  {}

  lemma AllGetOn(tr: seq<State>, t: nat, j: nat, i: nat)
    requires Execution(tr) && j < i < |tr| && forall k | j < k < i :: t < |tr[k].threads|
    ensures forall k | j < k < i :: GetsOn(tr[k], t, tr[k + 1])
  {
    forall k | j < k < i ensures GetsOn(tr[k], t, tr[k + 1]) {
      assert Next(tr[k], tr[k + 1]);
      GettingNext(tr[k], t, tr[k + 1]);
    }
  }

  /** A `try_get` comes back with nothing only if the list was empty at some point of the
      call, in any interleaving: otherwise it ends by giving its caller a node. */
  lemma NothingOnlyWhenEmpty(tr: seq<State>, j: nat, i: nat, t: nat)
    requires Execution(tr) && j < i && i + 1 < |tr|
    requires t < |tr[j + 1].threads| && tr[j + 1].threads[t].GetHead?
    requires forall k | j < k <= i :: t < |tr[k].threads| && !tr[k].threads[t].Idle?
    requires t < |tr[i + 1].threads| && tr[i + 1].threads[t].Idle?
    ensures (tr[i].threads[t].GetRelease? && tr[i + 1].owned == tr[i].owned + multiset{tr[i].threads[t].node})
            || EmptyAt(tr, j, i)
  {
    AllGetOn(tr, t, j, i + 1);
    EmptyBehind(tr, j, i, t);
  }

  lemma EmptyBehind(tr: seq<State>, j: nat, i: nat, t: nat)
    requires j < i && i + 1 < |tr| && t < |tr[j + 1].threads| && tr[j + 1].threads[t].GetHead?
    requires forall k | j < k < i + 1 :: GetsOn(tr[k], t, tr[k + 1])
    requires forall k | j < k <= i :: t < |tr[k].threads| && !tr[k].threads[t].Idle?
    requires t < |tr[i + 1].threads| && tr[i + 1].threads[t].Idle?
    ensures (tr[i].threads[t].GetRelease? && tr[i + 1].owned == tr[i].owned + multiset{tr[i].threads[t].node})
            || EmptyAt(tr, j, i)
  {
    NullWasRead(tr, j, i, t);
    assert GetsOn(tr[i], t, tr[i + 1]);
  }

  /** No thread is ever stuck: whatever the others do, it can take its next step. */
  lemma CanStep(tr: seq<State>, i: nat, t: nat) returns (s': State)
    requires Execution(tr) && i < |tr| && t < |tr[i].threads|
    ensures ThreadStep(tr[i], t, s')
  {
    var g := ReachableInv(tr, i);
    assert ThreadOk(tr[i], g, t);
    s' := StepOf(tr[i], t);
  }

  lemma StepOf(s: State, t: nat) returns (s': State)
    requires t < |s.threads| && s.next.Keys == s.refs.Keys && (HasNode(s.threads[t]) ==> s.threads[t].node in s.refs)
    ensures ThreadStep(s, t, s')
  {
    match s.threads[t]
    case Idle =>
      s' := Goto(s, t, GetHead);
      assert CallStep(s, t, s');
    case AddHead(n, k) => s' := Goto(s, t, AddNext(n, s.head, k));
    case AddNext(n, h, k) => s' := Goto(s, t, AddRefs(n, h, k)).(next := s.next[n := h]);
    case AddRefs(n, h, k) => s' := SetRefs(s, t, n, 1, AddCas(n, h, k));
    case AddCas(n, h, k) =>
      s' := if s.head == h then Goto(s, t, Resume(k)).(head := At(n)) else Goto(s, t, AddDefer(n, s.head, k));
    case AddDefer(n, h, k) =>
      s' := SetRefs(s, t, n, Word(s.refs[n] + SHOULD_BE_ON_FREELIST - 1),
                    if s.refs[n] == 1 then AddNext(n, h, k) else Resume(k));
    case GetHead => s' := Goto(s, t, LoopTest(s.head));
    case GetRefs(n) => s' := Goto(s, t, if Count(s.refs[n]) == 0 then GetHead else GetRef(n, s.refs[n]));
    case GetRef(n, r) =>
      s' := if s.refs[n] == r then SetRefs(s, t, n, Word(r + 1), GetNext(n)) else Goto(s, t, GetHead);
    case GetNext(n) => s' := Goto(s, t, GetCas(n, s.next[n]));
    case GetCas(n, nx) =>
      s' := if s.head == At(n) then Goto(s, t, GetRelease(n)).(head := nx) else Goto(s, t, GetDrop(n, s.head));
    case GetRelease(n) =>
      s' := SetRefs(s, t, n, Word(s.refs[n] - 2), Idle).(owned := s.owned + multiset{n});
    case GetDrop(n, h) =>
      s' := SetRefs(s, t, n, Word(s.refs[n] - 1),
                    if s.refs[n] == SHOULD_BE_ON_FREELIST + 1 then AddHead(n, Retry(h)) else LoopTest(h));
  }
}
