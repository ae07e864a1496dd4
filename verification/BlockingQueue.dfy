/** The blocking queue: a concurrent queue whose items are counted by a lightweight
    semaphore. Enqueuers signal after their items are in the inner queue; dequeuers take
    permits first and then call the inner queue until every permit is redeemed. The inner
    queue is a bag whose dequeues may come back empty-handed; the semaphore is the machine
    of module Semaphore, one of its threads for each thread here. */
module BlockingQueue {
  import opened Totals
  import S = Semaphore

  type Item = int     // opaque to the queue

  datatype Pc =
    | QIdle
    | QEnqueue(items: seq<Item>)          // about to enqueue them in the inner queue
    | QSignal                             // inside `signal`
    | QAcquire                            // inside a wait of the semaphore
    | QRedeem(left: nat)                  // in the loop around the inner dequeue

  datatype State = State(
    sem: S.State, inner: multiset<Item>, threads: seq<Pc>,
    // history
    added: multiset<Item>, removed: multiset<Item>)

  function Goto(s: State, t: nat, pc: Pc): State
    requires t < |s.threads|
  { s.(threads := s.threads[t := pc]) }

  ghost predicate CallStep(s: State, t: nat, s': State)
    requires t < |s.threads| == |s.sem.threads| && s.threads[t].QIdle?
  {
    || (exists items :: EnqueueCall(s, t, items, s'))
    || (exists max, wait :: AcquireCall(s, t, max, wait, s'))
  }

  ghost predicate EnqueueCall(s: State, t: nat, items: seq<Item>, s': State)
    requires t < |s.threads|
  { s' == Goto(s, t, QEnqueue(items)) }

  ghost predicate AcquireCall(s: State, t: nat, max: nat, wait: bool, s': State)
    requires t < |s.threads| == |s.sem.threads|
  { s' == Goto(s, t, QAcquire).(sem := S.Goto(s.sem, t, S.Load(S.Call(max, wait, 0)))) }

  ghost predicate EnqueueStep(s: State, t: nat, s': State)
    requires t < |s.threads| == |s.sem.threads| && s.threads[t].QEnqueue?
  {
    var items := s.threads[t].items;
    || s' == Goto(s, t, QIdle)                                // no memory: nothing enqueued, no signal
    || s' == Goto(s, t, QSignal).(inner := s.inner + multiset(items), added := s.added + multiset(items),
                                  sem := S.Goto(s.sem, t, S.Signal(|items|)))
  }

  /** A step inside the semaphore. */
  ghost predicate SemaphoreStep(s: State, t: nat, s': State)
    requires t < |s.threads| == |s.sem.threads| && (s.threads[t].QSignal? || s.threads[t].QAcquire?)
  {
    var pc := s.sem.threads[t];
    if pc.Idle? then s.threads[t].QSignal? && s' == Goto(s, t, QIdle)
    else
      && S.ThreadStep(s.sem, t, s'.sem)
      && s' == Goto(s, t, if pc.Return? then QRedeem(pc.c.got) else s.threads[t]).(sem := s'.sem)
  }

  /** The inner queue hands out some of what is asked for, possibly nothing. */
  ghost predicate RedeemStep(s: State, t: nat, s': State)
    requires t < |s.threads| && s.threads[t].QRedeem?
  {
    if s.threads[t].left == 0 then s' == Goto(s, t, QIdle)
    else exists got :: Handed(s, t, got, s')
  }

  ghost predicate Handed(s: State, t: nat, got: multiset<Item>, s': State)
    requires t < |s.threads| && s.threads[t].QRedeem?
  {
    var pc := s.threads[t];
    && got <= s.inner && |got| <= pc.left
    && s' == Goto(s, t, QRedeem(pc.left - |got|)).(inner := s.inner - got, removed := s.removed + got)
  }

  ghost predicate ThreadStep(s: State, t: nat, s': State)
  {
    && t < |s.threads| == |s.sem.threads|
    && match s.threads[t]
       case QIdle => CallStep(s, t, s')
       case QEnqueue(_) => EnqueueStep(s, t, s')
       case QSignal => SemaphoreStep(s, t, s')
       case QAcquire => SemaphoreStep(s, t, s')
       case QRedeem(_) => RedeemStep(s, t, s')
  }

  ghost predicate Init(s: State)
  {
    && S.Init(s.sem) && s.sem.initial == 0 && |s.threads| == |s.sem.threads|
    && s.inner == s.added == s.removed == multiset{}
    && forall t | 0 <= t < |s.threads| :: s.threads[t] == QIdle
  }

  ghost predicate Next(s: State, s': State) { exists t :: ThreadStep(s, t, s') }

  ghost predicate Execution(tr: seq<State>)
  {
    && tr != [] && Init(tr[0])
    && forall i | 0 <= i < |tr| - 1 :: Next(tr[i], tr[i + 1])
  }

  // ------------------------------------------------------------------ the invariant

  /** Items in the inner queue that have not been signalled. */
  function Unsignalled(pc: S.Pc): int { if pc.Signal? then pc.n else 0 }

  /** Permits a thread has acquired and still holds inside the semaphore. */
  function Held(pc: S.Pc): int
  {
    if pc.Idle? || pc.Signal? || pc.Post? then 0 else pc.c.got
  }

  /** Permits a thread has taken out of the semaphore and not redeemed. */
  function Unredeemed(pc: Pc): int { if pc.QRedeem? then pc.left else 0 }

  ghost predicate Matches(pc: Pc, sem: S.Pc)
  {
    match pc
    case QSignal => sem.Idle? || sem.Signal? || sem.Post?
    case QAcquire => !sem.Idle? && !sem.Signal? && !sem.Post?
    case _ => sem.Idle?
  }

  ghost predicate Inv(s: State)
  {
    && S.Ledger(s.sem) && s.sem.initial == 0 && |s.threads| == |s.sem.threads|
    && (forall t | 0 <= t < |s.threads| :: Matches(s.threads[t], s.sem.threads[t]))
    && s.added == s.inner + s.removed
    && |s.added| == s.sem.signalled + Total(s.sem.threads, Unsignalled)
    && |s.removed| == s.sem.granted - Total(s.sem.threads, Held) - Total(s.threads, Unredeemed)
  }

  lemma SemMoved(s: S.State, t: nat, pc: S.Pc)
    requires t < |s.threads|
    ensures var ts := s.threads[t := pc];
      && Total(ts, Unsignalled) == Total(s.threads, Unsignalled) - Unsignalled(s.threads[t]) + Unsignalled(pc)
      && Total(ts, Held) == Total(s.threads, Held) - Held(s.threads[t]) + Held(pc)
  {
    TotalUpdate(s.threads, t, pc, Unsignalled);
    TotalUpdate(s.threads, t, pc, Held);
  }

  lemma CallKeeps(s: State, t: nat, s': State)
    requires Inv(s) && t < |s.threads| && s.threads[t].QIdle? && CallStep(s, t, s')
    ensures Inv(s')
  {
    TotalUpdate(s.threads, t, s'.threads[t], Unredeemed);
    SemMoved(s.sem, t, s'.sem.threads[t]);
    assert s'.sem.threads == s.sem.threads[t := s'.sem.threads[t]];
    if s'.threads[t].QAcquire? {
      assert S.AcquireStep(s.sem, t, s'.sem);
      S.AcquireKeeps(s.sem, t, s'.sem);
    }
  }

  lemma EnqueueKeeps(s: State, t: nat, s': State)
    requires Inv(s) && t < |s.threads| && s.threads[t].QEnqueue? && EnqueueStep(s, t, s')
    ensures Inv(s')
  {
    TotalUpdate(s.threads, t, s'.threads[t], Unredeemed);
    SemMoved(s.sem, t, s'.sem.threads[t]);
    assert s'.sem.threads == s.sem.threads[t := s'.sem.threads[t]];
    if s'.threads[t].QSignal? {
      assert S.AcquireStep(s.sem, t, s'.sem);
      S.AcquireKeeps(s.sem, t, s'.sem);
    }
  }

  /** A semaphore step signals and grants exactly what moves through its thread. */
  lemma SemaphoreMoves(s: S.State, t: nat, s': S.State)
    requires S.ThreadStep(s, t, s') && !s.threads[t].Idle?
    ensures s'.threads == s.threads[t := s'.threads[t]]
    ensures s'.signalled - s.signalled == Unsignalled(s.threads[t]) - Unsignalled(s'.threads[t])
    ensures s.threads[t].Return? ==> s'.threads[t].Idle? && s'.granted == s.granted
    ensures !s.threads[t].Return? ==> s'.granted - s.granted == Held(s'.threads[t]) - Held(s.threads[t])
    ensures s.threads[t].Signal? || s.threads[t].Post? <==>
      s'.threads[t].Post? || (s'.threads[t].Idle? && !s.threads[t].Return?)
    ensures !s'.threads[t].Signal?
  {}

  lemma SemaphoreKeeps(s: State, t: nat, s': State)
    requires Inv(s) && t < |s.threads| && (s.threads[t].QSignal? || s.threads[t].QAcquire?) && SemaphoreStep(s, t, s')
    ensures Inv(s')
  {
    TotalUpdate(s.threads, t, s'.threads[t], Unredeemed);
    if !s.sem.threads[t].Idle? {
      S.NextKeeps(s.sem, s'.sem);
      SemaphoreMoves(s.sem, t, s'.sem);
      SemMoved(s.sem, t, s'.sem.threads[t]);
    }
  }

  lemma RedeemKeeps(s: State, t: nat, s': State)
    requires Inv(s) && t < |s.threads| && s.threads[t].QRedeem? && RedeemStep(s, t, s')
    ensures Inv(s')
  {
    if s.threads[t].left > 0 {
      var got :| Handed(s, t, got, s');
      HandedKeeps(s, t, got, s');
    } else {
      TotalUpdate(s.threads, t, s'.threads[t], Unredeemed);
    }
  }

  lemma HandedKeeps(s: State, t: nat, got: multiset<Item>, s': State)
    requires Inv(s) && t < |s.threads| && s.threads[t].QRedeem? && Handed(s, t, got, s')
    ensures Inv(s')
  {
    TotalUpdate(s.threads, t, s'.threads[t], Unredeemed);
    Parted(s.inner, got, s.removed);
  }

  lemma Parted(inner: multiset<Item>, got: multiset<Item>, removed: multiset<Item>)
    requires got <= inner
    ensures inner + removed == (inner - got) + (removed + got)
  {}

  lemma NextKeeps(s: State, s': State)
    requires Inv(s) && Next(s, s')
    ensures Inv(s')
  {
    var t: nat :| ThreadStep(s, t, s');
    match s.threads[t]
    case QIdle => CallKeeps(s, t, s');
    case QEnqueue(_) => EnqueueKeeps(s, t, s');
    case QSignal => SemaphoreKeeps(s, t, s');
    case QAcquire => SemaphoreKeeps(s, t, s');
    case QRedeem(_) => RedeemKeeps(s, t, s');
  }

  lemma {:induction false} Reachable(tr: seq<State>, i: nat)
    requires Execution(tr) && i < |tr|
    ensures Inv(tr[i])
  {
    if i == 0 {
      S.InitLedger(tr[0].sem);
      TotalZero(tr[0].sem.threads, Unsignalled);
      TotalZero(tr[0].sem.threads, Held);
      TotalZero(tr[0].threads, Unredeemed);
    } else {
      Reachable(tr, i - 1);
      NextKeeps(tr[i - 1], tr[i]);
    }
  }

  // ------------------------------------------------------------------ main results

  lemma Accounts(s: State)
    requires Inv(s)
    ensures |s.inner| == s.sem.count + S.Waiters(s.sem) + Total(s.sem.threads, Unsignalled)
                       + Total(s.sem.threads, Held) + Total(s.threads, Unredeemed)
    ensures s.sem.count + S.Waiters(s.sem) >= 0
    ensures Total(s.sem.threads, Unsignalled) >= 0 && Total(s.sem.threads, Held) >= 0
    ensures Total(s.threads, Unredeemed) >= 0
  {
    S.TotalsNat(s.sem);
    TotalNat(s.sem.threads, Unsignalled);
    TotalNat(s.sem.threads, Held);
    TotalNat(s.threads, Unredeemed);
  }

  /** In every state of every run the items in the inner queue are the semaphore's balance,
      plus those enqueued and not yet signalled, plus permits acquired and not redeemed;
      and with those handed out they are the items enqueued. */
  lemma ItemsAccounted(tr: seq<State>, i: nat)
    requires Execution(tr) && i < |tr|
    ensures var s := tr[i];
      && |s.inner| == s.sem.count + S.Waiters(s.sem) + Total(s.sem.threads, Unsignalled)
                      + Total(s.sem.threads, Held) + Total(s.threads, Unredeemed)
      && s.added == s.inner + s.removed
  {
    Reachable(tr, i);
    Accounts(tr[i]);
  }

  /** The dequeue loops never spin on an empty queue: whatever a thread still has to
      redeem is in the inner queue, on top of what the other threads are owed. */
  lemma NeverSpinsOnEmpty(tr: seq<State>, i: nat, t: nat)
    requires Execution(tr) && i < |tr| && t < |tr[i].threads| && tr[i].threads[t].QRedeem?
    ensures tr[i].threads[t].left <= Total(tr[i].threads, Unredeemed) <= |tr[i].inner|
  {
    Reachable(tr, i);
    Accounts(tr[i]);
    TotalAtLeast(tr[i].threads, Unredeemed, t);
  }

  /** With no call in progress the semaphore counts exactly the queued items. */
  lemma QuiescentSize(tr: seq<State>, i: nat)
    requires Execution(tr) && i < |tr| && forall t | 0 <= t < |tr[i].threads| :: tr[i].threads[t].QIdle?
    ensures tr[i].sem.count == |tr[i].inner|
  {
    Reachable(tr, i);
    var s := tr[i];
    forall t | 0 <= t < |s.sem.threads| ensures s.sem.threads[t].Idle? {
      assert Matches(s.threads[t], s.sem.threads[t]);
    }
    TotalZero(s.sem.threads, S.Waiting);
    TotalZero(s.sem.threads, Unsignalled);
    TotalZero(s.sem.threads, Held);
    TotalZero(s.threads, Unredeemed);
    Accounts(s);
  }

  /** When a consumer waits with nothing in the kernel and no post owed, every item in the
      inner queue is spoken for: its enqueuer is about to signal, or a thread that has the
      permit for it is on its way to take it. */
  lemma BlockedMeansSpokenFor(tr: seq<State>, i: nat, t: nat)
    requires Execution(tr) && i < |tr| && t < |tr[i].sem.threads| && S.Waits(tr[i].sem.threads[t])
    requires tr[i].sem.kernel == 0 && S.Posts(tr[i].sem) == 0
    ensures |tr[i].inner| == Total(tr[i].sem.threads, Unsignalled) + Total(tr[i].sem.threads, Held)
                             + Total(tr[i].threads, Unredeemed)
  {
    Reachable(tr, i);
    S.OneWaiter(tr[i].sem, t);
    Accounts(tr[i]);
  }

  /** No lost wakeup for the queue as a whole: when consumers wait with nothing in the
      kernel and no other call is in progress, the queue is empty. */
  lemma BlockedOnlyWhenEmpty(tr: seq<State>, i: nat, t: nat)
    requires Execution(tr) && i < |tr| && t < |tr[i].sem.threads| && S.Waits(tr[i].sem.threads[t])
    requires tr[i].sem.kernel == 0 && |tr[i].threads| == |tr[i].sem.threads|
    requires forall u | 0 <= u < |tr[i].threads| :: tr[i].threads[u].QIdle? || S.Waits(tr[i].sem.threads[u])
    ensures |tr[i].inner| == 0
  {
    Reachable(tr, i);
    var s := tr[i];
    forall u | 0 <= u < |s.sem.threads|
      ensures S.Owed(s.sem.threads[u]) == Unsignalled(s.sem.threads[u]) == Held(s.sem.threads[u]) == 0
      ensures Unredeemed(s.threads[u]) == 0
    {
      assert Matches(s.threads[u], s.sem.threads[u]) && S.CallOk(s.sem.threads[u]);
    }
    TotalZero(s.sem.threads, S.Owed);
    TotalZero(s.sem.threads, Unsignalled);
    TotalZero(s.sem.threads, Held);
    TotalZero(s.threads, Unredeemed);
    BlockedMeansSpokenFor(tr, i, t);
  }

  // ------------------------------------------------------------------ what a call does

  /** What any step does to an enqueue by thread t. */
  ghost predicate EnqueuesOn(s: State, t: nat, s': State)
  {
    t < |s.threads| && t < |s'.threads| && s.threads[t].QEnqueue? ==>
      && (s'.threads[t].QEnqueue? ==> s'.threads[t] == s.threads[t])
      && (s'.threads[t].QSignal? ==> s'.inner == s.inner + multiset(s.threads[t].items))
  }

  lemma NextEnqueuesOn(s: State, t: nat, s': State)
    requires Next(s, s')
    ensures EnqueuesOn(s, t, s')
  {
    var u: nat :| ThreadStep(s, u, s');
    OthersStay(s, u, s');
    if u == t && s.threads[t].QEnqueue? { assert EnqueueStep(s, t, s'); }
  }

  lemma OthersStay(s: State, u: nat, s': State)
    requires ThreadStep(s, u, s')
    ensures |s'.threads| == |s.threads| && s'.threads == s.threads[u := s'.threads[u]]
  {
    if s.threads[u].QRedeem? && s.threads[u].left > 0 {
      var got :| Handed(s, u, got, s');
    }
  }

  lemma AllEnqueueOn(tr: seq<State>, t: nat)
    requires Execution(tr)
    ensures forall k | 0 <= k < |tr| - 1 :: EnqueuesOn(tr[k], t, tr[k + 1])
  {
    forall k | 0 <= k < |tr| - 1 ensures EnqueuesOn(tr[k], t, tr[k + 1]) {
      assert Next(tr[k], tr[k + 1]);
      NextEnqueuesOn(tr[k], t, tr[k + 1]);
    }
  }

  /** A successful enqueue puts the caller's items, and only those, into the inner queue. */
  lemma EnqueueAdds(tr: seq<State>, j: nat, i: nat, t: nat, items: seq<Item>)
    requires Execution(tr) && j < i && i + 1 < |tr| && t < |tr[j].threads| && EnqueueCall(tr[j], t, items, tr[j + 1])
    requires forall k | j < k <= i :: t < |tr[k].threads| && tr[k].threads[t].QEnqueue?
    requires t < |tr[i + 1].threads| && tr[i + 1].threads[t].QSignal?
    ensures tr[i + 1].inner == tr[i].inner + multiset(items)
  {
    AllEnqueueOn(tr, t);
    StaysEnqueueing(tr, j, i, t, items);
    assert EnqueuesOn(tr[i], t, tr[i + 1]);
  }

  lemma {:induction false} StaysEnqueueing(tr: seq<State>, j: nat, i: nat, t: nat, items: seq<Item>)
    requires j < i < |tr| && t < |tr[j + 1].threads| && tr[j + 1].threads[t] == QEnqueue(items)
    requires forall k | j < k <= i :: t < |tr[k].threads| && tr[k].threads[t].QEnqueue?
    requires forall k | 0 <= k < |tr| - 1 :: EnqueuesOn(tr[k], t, tr[k + 1])
    ensures t < |tr[i].threads| && tr[i].threads[t] == QEnqueue(items)
  {
    if i > j + 1 {
      StaysEnqueueing(tr, j, i - 1, t, items);
      assert EnqueuesOn(tr[i - 1], t, tr[i]);
    }
  }

  /** A step of the queue is a step of the semaphore, or leaves it alone. */
  lemma SemaphoreGoesOn(s: State, t: nat, s': State)
    requires Inv(s) && Next(s, s') && t < |s.sem.threads|
    ensures S.GoesOn(s.sem, t, s'.sem)
  {
    var u: nat :| ThreadStep(s, u, s');
    if s'.sem != s.sem {
      SemaphoreSteps(s, u, s');
      S.CallGoesOn(s.sem, t, s'.sem);
    }
  }

  lemma SemaphoreSteps(s: State, u: nat, s': State)
    requires ThreadStep(s, u, s') && Inv(s) && s'.sem != s.sem
    ensures S.Next(s.sem, s'.sem)
  {
    assert Matches(s.threads[u], s.sem.threads[u]);
    assert S.ThreadStep(s.sem, u, s'.sem);
  }

  lemma AllGoOn(tr: seq<State>, t: nat, j: nat, i: nat)
    requires Execution(tr) && j < i < |tr| && forall k | j < k <= i :: t < |tr[k].sem.threads|
    ensures forall k | j < k < i :: S.GoesOn(tr[k].sem, t, tr[k + 1].sem)
  {
    forall k | j < k < i ensures S.GoesOn(tr[k].sem, t, tr[k + 1].sem) {
      Reachable(tr, k);
      assert Next(tr[k], tr[k + 1]);
      SemaphoreGoesOn(tr[k], t, tr[k + 1]);
    }
  }

  /** Every item of the queue is unsignalled, or its permit has been granted or posted. */
  ghost predicate AllSpokenFor(s: State)
  {
    |s.inner| == s.sem.kernel + S.Posts(s.sem) + Total(s.sem.threads, Unsignalled)
                 + Total(s.sem.threads, Held) + Total(s.threads, Unredeemed)
  }

  /** A dequeue comes back with fewer items than it asked for only if at some point of the
      call every item in the queue was spoken for or not yet announced. */
  lemma ShortOnlyWhenSpokenFor(tr: seq<State>, j: nat, i: nat, t: nat, max: nat, wait: bool)
    requires Execution(tr) && j < i < |tr| && t < |tr[j].threads| == |tr[j].sem.threads|
    requires AcquireCall(tr[j], t, max, wait, tr[j + 1])
    requires forall k | j < k <= i :: t < |tr[k].sem.threads| && S.InCall(tr[k].sem.threads[t])
    requires tr[i].sem.threads[t].Return?
    ensures tr[i].sem.threads[t].c.got < max ==> exists k :: j < k <= i && AllSpokenFor(tr[k])
  {
    AllGoOn(tr, t, j, i);
    var sems := seq(|tr|, k requires 0 <= k < |tr| => tr[k].sem);
    S.ShortMeansNone(sems, j, i, t, max);
    if tr[i].sem.threads[t].c.got < max {
      var k :| j < k <= i && sems[k].count <= 0;
      Reachable(tr, k);
      Accounts(tr[k]);
      assert AllSpokenFor(tr[k]);
    }
  }

  /** A thread in a dequeue loop can always take all it still has to redeem, and an enqueue
      can always go through. */
  lemma CanFinish(tr: seq<State>, i: nat, t: nat) returns (s': State)
    requires Execution(tr) && i < |tr| && t < |tr[i].threads|
    requires tr[i].threads[t].QRedeem? || tr[i].threads[t].QEnqueue?
    ensures ThreadStep(tr[i], t, s') && |s'.threads| == |tr[i].threads|
    ensures tr[i].threads[t].QRedeem? && tr[i].threads[t].left > 0 ==>
      s'.threads[t] == QRedeem(0) && |s'.removed| == |tr[i].removed| + tr[i].threads[t].left
    ensures tr[i].threads[t].QEnqueue? ==>
      s'.threads[t].QSignal? && s'.inner == tr[i].inner + multiset(tr[i].threads[t].items)
  {
    var s := tr[i];
    Reachable(tr, i);
    if s.threads[t].QEnqueue? {
      var items := s.threads[t].items;
      s' := Goto(s, t, QSignal).(inner := s.inner + multiset(items), added := s.added + multiset(items),
                                 sem := S.Goto(s.sem, t, S.Signal(|items|)));
    } else if s.threads[t].left == 0 {
      s' := Goto(s, t, QIdle);
    } else {
      NeverSpinsOnEmpty(tr, i, t);
      var got := Some(s.inner, s.threads[t].left);
      s' := Goto(s, t, QRedeem(0)).(inner := s.inner - got, removed := s.removed + got);
      assert Handed(s, t, got, s');
    }
  }

  lemma {:induction false} Some(m: multiset<Item>, n: nat) returns (got: multiset<Item>)
    requires n <= |m|
    ensures got <= m && |got| == n
    decreases n
  {
    if n == 0 {
      got := multiset{};
    } else {
      assert exists x :: x in m by {
        if forall x :: x !in m { assert false; }
      }
      var x :| x in m;
      var rest := Some(m - multiset{x}, n - 1);
      got := rest + multiset{x};
    }
  }
}
