/** The event loop's pending-functor and wakeup protocol. One loop thread polls, handles
    events, then swaps out the pending functors and runs them; any number of other threads
    push functors, or ask the loop to quit, and then write to the wakeup descriptor. Calls
    made on the loop's own thread come from inside `Loop`: from an event handler, or from a
    functor being run. */
module EventLoop {
  import opened Totals

  type Functor = int     // opaque to the loop

  const EVENTFD_MAX := 0xFFFF_FFFF_FFFF_FFFE

  datatype LoopPc =
    | LStart                                           // about to clear the quit flag
    | LTest                                            // about to test the quit flag
    | LPoll
    | LHandle(readable: bool)                          // handling events; wakeup still to be read?
    | LRun(batch: seq<Functor>, waking: bool)          // running functors; one is about to wake the loop?
    | LStopped

  datatype OtherPc = OIdle | OWake

  datatype State = State(
    pending: seq<Functor>, wakeup: nat, quit: bool, loop: LoopPc, others: seq<OtherPc>,
    // history
    queued: seq<Functor>, executed: seq<Functor>)

  /** Adding one to the eventfd; at its maximum the write fails and the value stays. */
  function Bump(n: nat): nat { if n >= EVENTFD_MAX then n else n + 1 }

  function Push(s: State, f: Functor): State { s.(pending := s.pending + [f], queued := s.queued + [f]) }

  function AskQuit(s: State): State { s.(quit := true) }

  ghost predicate LoopStep(s: State, s': State)
  {
    match s.loop
    case LStart => s' == s.(quit := false, loop := LTest)
    case LTest => s' == s.(loop := if s.quit then LStopped else LPoll)
    case LPoll => s' == s.(loop := LHandle(s.wakeup > 0))         // an event, or the poll timeout
    case LHandle(readable) =>
      || (exists f :: s' == Push(s, f))                           // a handler calls QueueInLoop
      || s' == AskQuit(s)                                         // a handler calls Quit
      || (readable && s' == s.(wakeup := 0, loop := LHandle(false)))
      || (!readable && s' == s.(pending := [], loop := LRun(s.pending, false)))
    case LRun(batch, waking) =>
      if waking then s' == s.(wakeup := Bump(s.wakeup), loop := LRun(batch, false))
      else
        || (exists f :: s' == Push(s, f).(loop := LRun(batch, true)))   // the running functor calls QueueInLoop
        || s' == AskQuit(s)
        || (batch != [] && s' == s.(executed := s.executed + [batch[0]], loop := LRun(batch[1..], false)))
        || (batch == [] && s' == s.(loop := LTest))
    case LStopped => false
  }

  ghost predicate OtherStep(s: State, t: nat, s': State)
  {
    && t < |s.others|
    && match s.others[t]
       case OIdle =>
         || (exists f :: s' == Push(s, f).(others := s.others[t := OWake]))
         || s' == AskQuit(s).(others := s.others[t := OWake])
       case OWake => s' == s.(wakeup := Bump(s.wakeup), others := s.others[t := OIdle])
  }

  ghost predicate Init(s: State)
  {
    && s.pending == s.queued == s.executed == [] && s.wakeup == 0 && !s.quit && s.loop == LStart
    && forall t | 0 <= t < |s.others| :: s.others[t] == OIdle
  }

  ghost predicate Next(s: State, s': State) { LoopStep(s, s') || exists t :: OtherStep(s, t, s') }

  ghost predicate Execution(tr: seq<State>)
  {
    && tr != [] && Init(tr[0])
    && forall i | 0 <= i < |tr| - 1 :: Next(tr[i], tr[i + 1])
  }

  // ------------------------------------------------------------------ the invariant

  function Waking(pc: OtherPc): int { if pc.OWake? then 1 else 0 }

  /** The next poll will not sleep: the descriptor is readable, or is about to be. */
  ghost predicate Awake(s: State)
  {
    s.wakeup > 0 || Total(s.others, Waking) > 0 || (s.loop.LRun? && s.loop.waking)
  }

  function Batch(pc: LoopPc): seq<Functor> { if pc.LRun? then pc.batch else [] }

  ghost predicate Inv(s: State)
  {
    && s.executed + Batch(s.loop) + s.pending == s.queued
    && (s.pending != [] && !s.loop.LHandle? ==> Awake(s))
    && (s.quit && s.loop.LPoll? ==> Awake(s))
    && (s.loop.LHandle? && s.loop.readable ==> s.wakeup > 0)
  }

  lemma OneMore(a: seq<Functor>, b: seq<Functor>, c: seq<Functor>, f: Functor)
    ensures a + b + (c + [f]) == a + b + c + [f]
  {}

  lemma OneRun(a: seq<Functor>, b: seq<Functor>, c: seq<Functor>)
    requires b != []
    ensures a + [b[0]] + b[1..] + c == a + b + c
  {
    assert b == [b[0]] + b[1..];
  }

  lemma HandleKeeps(s: State, s': State)
    requires Inv(s) && s.loop.LHandle? && LoopStep(s, s')
    ensures Inv(s')
  {
    if s'.loop.LRun? {
      assert s.executed + [] + s.pending == s'.executed + s.pending + [];
    } else if f :| s' == Push(s, f) {
      OneMore(s.executed, [], s.pending, f);
    }
  }

  lemma RunKeeps(s: State, s': State)
    requires Inv(s) && s.loop.LRun? && LoopStep(s, s')
    ensures Inv(s')
  {
    var batch := s.loop.batch;
    if f :| !s.loop.waking && s' == Push(s, f).(loop := LRun(batch, true)) {
      OneMore(s.executed, batch, s.pending, f);
    } else if s'.executed != s.executed {
      OneRun(s.executed, batch, s.pending);
    }
  }

  lemma LoopKeeps(s: State, s': State)
    requires Inv(s) && LoopStep(s, s')
    ensures Inv(s')
  {
    match s.loop
    case LHandle(_) => HandleKeeps(s, s');
    case LRun(_, _) => RunKeeps(s, s');
    case _ =>
  }

  lemma OtherKeeps(s: State, t: nat, s': State)
    requires Inv(s) && OtherStep(s, t, s')
    ensures Inv(s')
  {
    TotalUpdate(s.others, t, s'.others[t], Waking);
    TotalNat(s.others, Waking);
    TotalNat(s'.others, Waking);
    TotalAtLeast(s'.others, Waking, t);
    if f :| s.others[t].OIdle? && s' == Push(s, f).(others := s.others[t := OWake]) {
      OneMore(s.executed, Batch(s.loop), s.pending, f);
    }
  }

  lemma {:induction false} Reachable(tr: seq<State>, i: nat)
    requires Execution(tr) && i < |tr|
    ensures Inv(tr[i])
  {
    if i > 0 {
      Reachable(tr, i - 1);
      var s, s' := tr[i - 1], tr[i];
      assert Next(s, s');
      if LoopStep(s, s') {
        LoopKeeps(s, s');
      } else {
        var t: nat :| OtherStep(s, t, s');
        OtherKeeps(s, t, s');
      }
    }
  }

  // ------------------------------------------------------------------ main results

  /** No lost wakeup: a loop in poll with pending functors, or asked to quit, finds the
      wakeup descriptor readable or some thread about to write it. */
  lemma NoLostWakeup(tr: seq<State>, i: nat) returns (t: nat)
    requires Execution(tr) && i < |tr| && tr[i].loop.LPoll? && (tr[i].pending != [] || tr[i].quit)
    ensures tr[i].wakeup > 0 || (t < |tr[i].others| && tr[i].others[t].OWake?)
  {
    Reachable(tr, i);
    t := 0;
    if tr[i].wakeup == 0 { t := TotalWitness(tr[i].others, Waking); }
  }

  /** Functors run in push order, each at most once: what has run, is running and is
      pending is exactly what was queued. */
  lemma RunsInOrder(tr: seq<State>, i: nat)
    requires Execution(tr) && i < |tr|
    ensures tr[i].executed + Batch(tr[i].loop) + tr[i].pending == tr[i].queued
    ensures tr[i].executed <= tr[i].queued
  {
    Reachable(tr, i);
    var s := tr[i];
    assert s.executed + Batch(s.loop) + s.pending == s.executed + (Batch(s.loop) + s.pending);
  }

  /** By the time the loop polls again it has run everything that was pending at the last swap. */
  lemma BatchRunsBeforePoll(tr: seq<State>, i: nat)
    requires Execution(tr) && i < |tr| && !tr[i].loop.LRun?
    ensures tr[i].executed + tr[i].pending == tr[i].queued
  {
    Reachable(tr, i);
    assert tr[i].executed + [] == tr[i].executed;
  }

  // ------------------------------------------------------------------ queueing

  /** One step of a run is a call of QueueInLoop(f): by a handler, by the running functor,
      or by another thread. */
  ghost predicate QueueStep(s: State, f: Functor, s': State)
  {
    || (s.loop.LHandle? && s' == Push(s, f))
    || (s.loop.LRun? && !s.loop.waking && s' == Push(s, f).(loop := LRun(s.loop.batch, true)))
    || exists t :: 0 <= t < |s.others| && s.others[t].OIdle? && s' == Push(s, f).(others := s.others[t := OWake])
  }

  /** Functors are only added to those queued, and to those run or about to be. */
  ghost predicate Grown(s: State, s': State)
  {
    s.queued <= s'.queued && |s.executed| + |Batch(s.loop)| <= |s'.executed| + |Batch(s'.loop)|
  }

  lemma GrownStep(s: State, s': State)
    requires Next(s, s')
    ensures Grown(s, s')
  {}

  lemma GrownTwice(a: State, b: State, c: State)
    requires Grown(a, b) && Grown(b, c)
    ensures Grown(a, c)
  {}

  lemma AllGrown(tr: seq<State>)
    requires Execution(tr)
    ensures forall k | 0 <= k < |tr| - 1 :: Grown(tr[k], tr[k + 1])
  {
    forall k | 0 <= k < |tr| - 1 ensures Grown(tr[k], tr[k + 1]) {
      assert Next(tr[k], tr[k + 1]);
      GrownStep(tr[k], tr[k + 1]);
    }
  }

  lemma QueuedGrows(tr: seq<State>, j: nat, i: nat)
    requires Execution(tr) && j <= i < |tr|
    ensures Grown(tr[j], tr[i])
  {
    AllGrown(tr);
    GrownOver(tr, j, i);
  }

  lemma {:induction false} GrownOver(tr: seq<State>, j: nat, i: nat)
    requires j <= i < |tr| && forall k | 0 <= k < |tr| - 1 :: Grown(tr[k], tr[k + 1])
    ensures Grown(tr[j], tr[i])
  {
    if j < i {
      GrownOver(tr, j, i - 1);
      GrownTwice(tr[j], tr[i - 1], tr[i]);
    }
  }

  /** The functor that runs in its turn is the one that was handed to QueueInLoop. */
  lemma RunsWhatWasQueued(tr: seq<State>, j: nat, i: nat, f: Functor)
    requires Execution(tr) && j < i < |tr| && QueueStep(tr[j], f, tr[j + 1])
    ensures |tr[i].executed| > |tr[j].queued| ==> tr[i].executed[|tr[j].queued|] == f
    ensures |tr[i].executed| <= |tr[j].queued| ==> f in Batch(tr[i].loop) + tr[i].pending
  {
    var n := |tr[j].queued|;
    assert tr[j + 1].queued == tr[j].queued + [f];
    QueuedGrows(tr, j + 1, i);
    RunsInOrder(tr, i);
    assert tr[i].queued[n] == f;
    var s := tr[i];
    assert s.queued == s.executed + (Batch(s.loop) + s.pending);
    if |s.executed| <= n { assert (Batch(s.loop) + s.pending)[n - |s.executed|] == f; }
  }

  /** It runs in the next round: once the loop has swapped the pending functors out and is
      done running them, f is among those that have run. */
  lemma RunsInNextRound(tr: seq<State>, j: nat, k: nat, i: nat, f: Functor)
    requires Execution(tr) && j < k < i < |tr| && QueueStep(tr[j], f, tr[j + 1])
    requires tr[k].loop.LHandle? && tr[k + 1].loop.LRun? && !tr[i].loop.LRun?
    ensures |tr[i].executed| > |tr[j].queued| && tr[i].executed[|tr[j].queued|] == f
  {
    assert tr[j + 1].queued == tr[j].queued + [f];
    QueuedGrows(tr, j + 1, k + 1);
    SwapTakesAll(tr, k);
    QueuedGrows(tr, k + 1, i);
    RunsWhatWasQueued(tr, j, i, f);
  }

  lemma SwapTakesAll(tr: seq<State>, k: nat)
    requires Execution(tr) && k + 1 < |tr| && tr[k].loop.LHandle? && tr[k + 1].loop.LRun?
    ensures |tr[k + 1].executed| + |Batch(tr[k + 1].loop)| == |tr[k + 1].queued|
  {
    assert Next(tr[k], tr[k + 1]);
    Reachable(tr, k + 1);
  }

  /** The loop can always go on until it stops. */
  lemma LoopCanStep(s: State) returns (s': State)
    requires !s.loop.LStopped?
    ensures LoopStep(s, s')
  {
    match s.loop
    case LStart => s' := s.(quit := false, loop := LTest);
    case LTest => s' := s.(loop := if s.quit then LStopped else LPoll);
    case LPoll => s' := s.(loop := LHandle(s.wakeup > 0));
    case LHandle(readable) =>
      s' := if readable then s.(wakeup := 0, loop := LHandle(false))
            else s.(pending := [], loop := LRun(s.pending, false));
    case LRun(batch, waking) =>
      s' := if waking then s.(wakeup := Bump(s.wakeup), loop := LRun(batch, false))
            else if batch != [] then s.(executed := s.executed + [batch[0]], loop := LRun(batch[1..], false))
            else s.(loop := LTest);
  }

  /** A wakeup that the poll found is read before the functors are run, so that the next
      poll sleeps unless there is a new one. */
  lemma {:induction false} WakeupIsRead(tr: seq<State>, i: nat, k: nat)
    requires Execution(tr) && i < k < |tr| && tr[i].loop.LPoll? && tr[i].wakeup > 0 && tr[i + 1].loop.LHandle?
    requires forall m | i < m <= k :: tr[m].loop.LHandle?
    ensures tr[k].loop.readable || exists m :: i < m <= k && tr[m].wakeup == 0
  {
    assert Next(tr[k - 1], tr[k]);
    if k > i + 1 {
      WakeupIsRead(tr, i, k - 1);
      HandlingStep(tr[k - 1], tr[k]);
    }
  }

  lemma HandlingStep(s: State, s': State)
    requires Next(s, s') && s.loop.LHandle? && s'.loop.LHandle?
    ensures s.loop.readable ==> s'.loop.readable || s'.wakeup == 0
  {}

  // ------------------------------------------------------------------ quitting

  /** One step of a run is a call of Quit: by a handler, by the running functor, or by
      another thread. */
  ghost predicate QuitStep(s: State, s': State)
  {
    || ((s.loop.LHandle? || (s.loop.LRun? && !s.loop.waking)) && s' == AskQuit(s))
    || exists t :: OtherQuits(s, t, s')
  }

  ghost predicate OtherQuits(s: State, t: nat, s': State)
  {
    t < |s.others| && s.others[t].OIdle? && s' == AskQuit(s).(others := s.others[t := OWake])
  }

  lemma QuitSets(s: State, s': State)
    requires QuitStep(s, s')
    ensures s'.quit && s'.loop == s.loop
  {}

  /** Only `Loop` entering clears the flag, and it is entered once. */
  lemma FlagStays(s: State, s': State)
    requires Next(s, s') && !s.loop.LStart?
    ensures !s'.loop.LStart? && (s.quit ==> s'.quit)
  {}

  /** Only Quit sets the flag. */
  lemma OnlyQuitSets(s: State, s': State)
    requires Next(s, s') && !QuitStep(s, s')
    ensures s.loop.LStart? && !s'.loop.LStart? ==> !s'.quit
    ensures s'.quit ==> s.quit
  {
    if t: nat :| OtherStep(s, t, s') {
      assert !OtherQuits(s, t, s');
    }
  }

  /** A Quit made once `Loop` is running is never forgotten. */
  lemma {:induction false} QuitPersists(tr: seq<State>, j: nat, i: nat)
    requires Execution(tr) && j < i < |tr| && QuitStep(tr[j], tr[j + 1]) && !tr[j].loop.LStart?
    ensures tr[i].quit && !tr[i].loop.LStart?
  {
    if i == j + 1 {
      QuitSets(tr[j], tr[i]);
    } else {
      QuitPersists(tr, j, i - 1);
      assert Next(tr[i - 1], tr[i]);
      FlagStays(tr[i - 1], tr[i]);
    }
  }

  /** A Quit made before is forgotten when `Loop` is entered, unless there is another. */
  lemma {:induction false} EarlyQuitForgotten(tr: seq<State>, j: nat, i: nat)
    requires Execution(tr) && j < i < |tr| && QuitStep(tr[j], tr[j + 1]) && tr[j].loop.LStart?
    requires forall k | j < k < i :: !QuitStep(tr[k], tr[k + 1])
    ensures tr[i].loop.LStart? || !tr[i].quit
  {
    if i == j + 1 {
      QuitSets(tr[j], tr[i]);
    } else {
      EarlyQuitForgotten(tr, j, i - 1);
      assert Next(tr[i - 1], tr[i]);
      OnlyQuitSets(tr[i - 1], tr[i]);
      if !tr[i - 1].loop.LStart? { FlagStays(tr[i - 1], tr[i]); }
    }
  }

  /** A Quit stops the loop at its next test of the flag, if there is no other Quit until
      then, exactly when it was made after `Loop` had cleared the flag. */
  lemma QuitHonoured(tr: seq<State>, j: nat, i: nat)
    requires Execution(tr) && j < i && i + 1 < |tr| && QuitStep(tr[j], tr[j + 1])
    requires forall k | j < k < i :: !QuitStep(tr[k], tr[k + 1])
    requires tr[i].loop.LTest? && LoopStep(tr[i], tr[i + 1])
    ensures tr[i + 1].loop.LStopped? <==> !tr[j].loop.LStart?
  {
    if tr[j].loop.LStart? {
      EarlyQuitForgotten(tr, j, i);
    } else {
      QuitPersists(tr, j, i);
    }
  }

  /** After a Quit made once `Loop` is running, the loop never goes to poll again; and if
      it is polling then, its descriptor is readable or about to be. */
  lemma NeverPollsAgain(tr: seq<State>, j: nat, i: nat)
    requires Execution(tr) && j < i && i + 1 < |tr| && QuitStep(tr[j], tr[j + 1]) && !tr[j].loop.LStart?
    ensures tr[i + 1].loop.LPoll? ==> tr[i].loop.LPoll? && Awake(tr[i + 1])
  {
    QuitPersists(tr, j, i);
    QuitPersists(tr, j, i + 1);
    assert Next(tr[i], tr[i + 1]);
    Reachable(tr, i + 1);
  }

  /** The failing run: a Quit made before `Loop` clears the flag, after which the loop
      goes on to poll. */
  lemma EarlyQuitLost() returns (tr: seq<State>)
    ensures Execution(tr) && |tr| == 4 && QuitStep(tr[0], tr[1]) && tr[0].loop.LStart?
    ensures tr[3].loop.LPoll? && !tr[3].quit
  {
    var s0 := State([], 0, false, LStart, [OIdle], [], []);
    var s1 := s0.(quit := true, others := [OWake]);
    var s2 := s1.(quit := false, loop := LTest);
    var s3 := s2.(loop := LPoll);
    assert OtherQuits(s0, 0, s1) && OtherStep(s0, 0, s1);
    assert LoopStep(s1, s2) && LoopStep(s2, s3);
    tr := [s0, s1, s2, s3];
  }
}
