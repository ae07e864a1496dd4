/** The lightweight semaphore: an atomic count in front of a kernel semaphore. A thread
    that finds no permit decrements the count below zero and waits in the kernel; a signal
    posts to the kernel once for every waiter the count showed. A waiter that times out
    must either put its decrement back or collect the post that is on its way. Every
    atomic access is one step; any number of threads, any number of spins. */
module Semaphore {
  import opened Totals

  /** A pending call acquires at most `max` permits, of which `got` are acquired; `wait`
      says whether it may block, as opposed to the `try` forms. */
  datatype Call = Call(max: nat, wait: bool, got: nat)

  datatype Pc =
    | Idle
    | Load(c: Call)                // about to load the count before a first exchange
    | Try(c: Call, seen: int)      // about to exchange the count if `seen` is positive
    | Spin(c: Call)                // spinning: about to load the count, or to stop
    | Spun(c: Call, seen: int)     // spinning: has loaded it
    | Sub(c: Call)                 // about to decrement the count
    | Kernel(c: Call)              // waiting on the kernel semaphore
    | Cancel(c: Call)              // timed out: about to load the count
    | Cancelling(c: Call, seen: int)
    | Return(c: Call)
    | Signal(n: nat)               // about to add to the count
    | Post(k: nat)                 // about to post k times

  datatype State = State(
    count: int, kernel: nat, threads: seq<Pc>,
    // history
    initial: nat, signalled: nat, granted: nat)

  /** What an exchange leaves of a positive count. */
  function Left(seen: int, max: nat): int { if seen > max then seen - max else 0 }

  function Wanted(c: Call): nat { if c.got <= c.max then c.max - c.got else 0 }

  function Goto(s: State, t: nat, pc: Pc): State
    requires t < |s.threads|
  { s.(threads := s.threads[t := pc]) }

  /** Permits taken by an exchange that found `seen`. */
  function Exchanged(s: State, t: nat, c: Call, seen: int): State
    requires t < |s.threads| && seen > 0
  {
    var n: nat := seen - Left(seen, Wanted(c));
    Goto(s, t, Return(c.(got := c.got + n))).(count := Left(seen, Wanted(c)), granted := s.granted + n)
  }

  /** One permit acquired the slow way; a bulk call then tries for more without waiting. */
  function Acquired(s: State, t: nat, c: Call): State
    requires t < |s.threads|
  {
    var c' := c.(got := c.got + 1, wait := false);
    Goto(s, t, if c.max > 1 then Load(c') else Return(c')).(granted := s.granted + 1)
  }

  /** How many waiters a signal of n must wake, given the count before it. */
  function ToRelease(old_: int, n: nat): int { if -old_ < n then -old_ else n }

  ghost predicate AcquireStep(s: State, t: nat, s': State)
    requires t < |s.threads|
  {
    match s.threads[t]
    case Idle =>
      || (exists max, wait :: s' == Goto(s, t, Load(Call(max, wait, 0))))
      || (exists n :: s' == Goto(s, t, Signal(n)))
    case Load(c) => s' == Goto(s, t, Try(c, s.count))
    case Try(c, seen) =>
      if seen > 0 then
        || (s.count == seen && s' == Exchanged(s, t, c, seen))
        || s' == Goto(s, t, Try(c, s.count))                  // failed, also spuriously
      else s' == Goto(s, t, if c.wait && c.max > 0 then Spin(c) else Return(c))
    case Spin(c) => s' == Goto(s, t, Spun(c, s.count)) || s' == Goto(s, t, Sub(c))
    case Spun(c, seen) =>
      if seen > 0 && s.count == seen then s' == Exchanged(s, t, c, seen)
      else s' == Goto(s, t, Spin(c))
    case Sub(c) =>
      if s.count > 0 then s' == Acquired(s, t, c).(count := s.count - 1)
      else s' == Goto(s, t, Kernel(c)).(count := s.count - 1)
    case Kernel(c) =>
      || (s.kernel > 0 && s' == Acquired(s, t, c).(kernel := s.kernel - 1))
      || s' == Goto(s, t, Cancel(c))                          // timeout, or the kernel wait failed
    case Cancel(c) => s' == Goto(s, t, Cancelling(c, s.count))
    case Cancelling(c, seen) =>
      if seen >= 0 then
        if s.kernel > 0 then s' == Acquired(s, t, c).(kernel := s.kernel - 1)
        else s' == Goto(s, t, Cancel(c))
      else if s.count == seen then s' == Goto(s, t, Return(c)).(count := s.count + 1)
      else s' == Goto(s, t, Cancel(c))
    case Return(c) => s' == Goto(s, t, Idle)
    case _ => false
  }

  ghost predicate SignalStep(s: State, t: nat, s': State)
    requires t < |s.threads|
  {
    match s.threads[t]
    case Signal(n) =>
      var k := ToRelease(s.count, n);
      s' == Goto(s, t, if k > 0 then Post(k) else Idle).(count := s.count + n, signalled := s.signalled + n)
    case Post(k) =>
      k > 0 && s' == Goto(s, t, if k > 1 then Post(k - 1) else Idle).(kernel := s.kernel + 1)
    case _ => false
  }

  ghost predicate ThreadStep(s: State, t: nat, s': State)
  {
    t < |s.threads| && (AcquireStep(s, t, s') || SignalStep(s, t, s'))
  }

  ghost predicate Init(s: State)
  {
    && s.count == s.initial && s.kernel == 0 && s.signalled == s.granted == 0
    && forall t | 0 <= t < |s.threads| :: s.threads[t] == Idle
  }

  ghost predicate Next(s: State, s': State) { exists t :: ThreadStep(s, t, s') }

  ghost predicate Execution(tr: seq<State>)
  {
    && tr != [] && Init(tr[0])
    && forall i | 0 <= i < |tr| - 1 :: Next(tr[i], tr[i + 1])
  }

  // ------------------------------------------------------------------ the ledger

  predicate Waits(pc: Pc) { pc.Kernel? || pc.Cancel? || pc.Cancelling? }

  /** Threads that have decremented the count and not settled it. */
  function Waiting(pc: Pc): int { if Waits(pc) then 1 else 0 }

  /** Kernel posts a signalling thread still has to make. */
  function Owed(pc: Pc): int { if pc.Post? then pc.k else 0 }

  function Below(count: int): int { if count < 0 then -count else 0 }

  function Waiters(s: State): int { Total(s.threads, Waiting) }
  function Posts(s: State): int { Total(s.threads, Owed) }

  /** A call never holds more than it asked for, and blocks only while it holds nothing. */
  predicate CallOk(pc: Pc)
  {
    match pc
    case Idle => true
    case Signal(_) => true
    case Post(k) => k > 0
    case Load(c) => c.got <= c.max && (c.wait ==> c.got == 0)
    case Try(c, _) => c.got <= c.max && (c.wait ==> c.got == 0)
    case Return(c) => c.got <= c.max
    case Spin(c) => Blocking(c)
    case Spun(c, _) => Blocking(c)
    case Sub(c) => Blocking(c)
    case Kernel(c) => Blocking(c)
    case Cancel(c) => Blocking(c)
    case Cancelling(c, _) => Blocking(c)
  }

  predicate Blocking(c: Call) { c.wait && c.got == 0 < c.max }

  ghost predicate Ledger(s: State)
  {
    && Waiters(s) == Below(s.count) + s.kernel + Posts(s)
    && s.initial + s.signalled - s.granted == s.count + Waiters(s)
    && forall t | 0 <= t < |s.threads| :: CallOk(s.threads[t])
  }

  lemma Moved(s: State, t: nat, pc: Pc)
    requires t < |s.threads|
    ensures Waiters(Goto(s, t, pc)) == Waiters(s) - Waiting(s.threads[t]) + Waiting(pc)
    ensures Posts(Goto(s, t, pc)) == Posts(s) - Owed(s.threads[t]) + Owed(pc)
  {
    TotalUpdate(s.threads, t, pc, Waiting);
    TotalUpdate(s.threads, t, pc, Owed);
  }

  lemma AcquireKeeps(s: State, t: nat, s': State)
    requires Ledger(s) && t < |s.threads| && AcquireStep(s, t, s')
    ensures Ledger(s')
  {
    Moved(s, t, s'.threads[t]);
    assert s'.threads == Goto(s, t, s'.threads[t]).threads;
    if Waits(s.threads[t]) {
      SettleKeeps(s, t, s');
    } else {
      ClaimKeeps(s, t, s');
    }
  }

  /** Steps of a thread that has not decremented the count without acquiring. */
  lemma ClaimKeeps(s: State, t: nat, s': State)
    requires Ledger(s) && t < |s.threads| && AcquireStep(s, t, s') && !Waits(s.threads[t])
    requires Waiters(s') == Waiters(s) + Waiting(s'.threads[t]) && Posts(s') == Posts(s)
    ensures Ledger(s')
  {
    assert CallOk(s.threads[t]);
    ClaimCall(s, t, s');
    ClaimBalance(s, t, s');
  }

  lemma ClaimCall(s: State, t: nat, s': State)
    requires t < |s.threads| && AcquireStep(s, t, s') && !Waits(s.threads[t]) && CallOk(s.threads[t])
    ensures s'.threads == s.threads[t := s'.threads[t]] && CallOk(s'.threads[t])
  {}

  lemma ClaimBalance(s: State, t: nat, s': State)
    requires t < |s.threads| && AcquireStep(s, t, s') && !Waits(s.threads[t])
    ensures s'.initial == s.initial && s'.signalled == s.signalled && s'.kernel == s.kernel
    ensures s'.granted - s.granted == s.count - s'.count - Waiting(s'.threads[t])
    ensures Below(s'.count) == Below(s.count) + Waiting(s'.threads[t])
  {}

  /** Steps of a thread that has. */
  lemma SettleKeeps(s: State, t: nat, s': State)
    requires Ledger(s) && t < |s.threads| && AcquireStep(s, t, s') && Waits(s.threads[t])
    requires Waiters(s') == Waiters(s) - 1 + Waiting(s'.threads[t]) && Posts(s') == Posts(s)
    ensures Ledger(s')
  {}

  lemma SignalKeeps(s: State, t: nat, s': State)
    requires Ledger(s) && t < |s.threads| && SignalStep(s, t, s')
    ensures Ledger(s')
  {
    Moved(s, t, s'.threads[t]);
    assert s'.threads == Goto(s, t, s'.threads[t]).threads;
  }

  lemma InitLedger(s: State)
    requires Init(s)
    ensures Ledger(s)
  {
    TotalZero(s.threads, Waiting);
    TotalZero(s.threads, Owed);
  }

  lemma NextKeeps(s: State, s': State)
    requires Ledger(s) && Next(s, s')
    ensures Ledger(s') && s'.initial == s.initial && |s'.threads| == |s.threads|
  {
    var t :| ThreadStep(s, t, s');
    if AcquireStep(s, t, s') {
      AcquireKeeps(s, t, s');
    } else {
      SignalKeeps(s, t, s');
    }
  }

  /** The two balances hold in every state of every run. */
  lemma {:induction false} AlwaysBalanced(tr: seq<State>, i: nat)
    requires Execution(tr) && i < |tr|
    ensures Ledger(tr[i])
  {
    if i == 0 {
      InitLedger(tr[0]);
    } else {
      AlwaysBalanced(tr, i - 1);
      NextKeeps(tr[i - 1], tr[i]);
    }
  }

  // ------------------------------------------------------------------ what the ledger means

  lemma TotalsNat(s: State)
    requires forall t | 0 <= t < |s.threads| :: CallOk(s.threads[t])
    ensures 0 <= Waiters(s) <= |s.threads| && 0 <= Posts(s)
  {
    TotalCount(s.threads, Waiting);
    TotalNat(s.threads, Owed);
  }

  lemma OneWaiter(s: State, t: nat)
    requires t < |s.threads| && Waits(s.threads[t])
    ensures Waiters(s) >= 1
  {
    TotalAtLeast(s.threads, Waiting, t);
  }

  /** Permits are never granted out of nothing, whatever times out or spins. */
  lemma NeverOvergrants(tr: seq<State>, i: nat)
    requires Execution(tr) && i < |tr|
    ensures tr[i].granted <= tr[i].initial + tr[i].signalled
  {
    AlwaysBalanced(tr, i);
    TotalsNat(tr[i]);
  }

  /** A timed-out waiter that sees a count of zero or more has a post to collect, and so
      has every other waiter: kernel posts, made or owed, match the waiters exactly. */
  lemma TimedOutCollects(tr: seq<State>, i: nat, t: nat)
    requires Execution(tr) && i < |tr| && t < |tr[i].threads| && Waits(tr[i].threads[t]) && tr[i].count >= 0
    ensures tr[i].kernel + Posts(tr[i]) == Waiters(tr[i]) >= 1
  {
    AlwaysBalanced(tr, i);
    OneWaiter(tr[i], t);
  }

  /** No lost wakeup: when a thread waits with nothing in the kernel and nobody posting,
      every permit there ever was has been granted. */
  lemma NoLostWakeup(tr: seq<State>, i: nat, t: nat)
    requires Execution(tr) && i < |tr| && t < |tr[i].threads| && Waits(tr[i].threads[t])
    requires tr[i].kernel == 0 && Posts(tr[i]) == 0
    ensures tr[i].granted == tr[i].initial + tr[i].signalled && tr[i].count == -Waiters(tr[i]) < 0
  {
    AlwaysBalanced(tr, i);
    OneWaiter(tr[i], t);
  }

  /** The number of posts handed to the kernel loop as an `int` is at most the number of
      threads, for any count added to any balance. */
  lemma ReleaseFits(tr: seq<State>, i: nat, n: nat)
    requires Execution(tr) && i < |tr|
    ensures ToRelease(tr[i].count, n) <= |tr[i].threads|
  {
    AlwaysBalanced(tr, i);
    TotalsNat(tr[i]);
  }

  /** A call returns at most what it asked for; a blocking call that returns without having
      put its decrement back returns at least one permit. */
  lemma ReturnsEnough(tr: seq<State>, i: nat, t: nat)
    requires Execution(tr) && i + 1 < |tr| && ThreadStep(tr[i], t, tr[i + 1]) && tr[i + 1].threads[t].Return?
    ensures var c := tr[i + 1].threads[t].c;
      && c.got <= c.max
      && (c.wait && c.max > 0 && !tr[i].threads[t].Cancelling? ==> c.got >= 1)
  {
    AlwaysBalanced(tr, i);
    AlwaysBalanced(tr, i + 1);
  }

  /** With no call in progress the count is exactly what has not been taken. */
  lemma QuiescentCount(tr: seq<State>, i: nat)
    requires Execution(tr) && i < |tr| && forall t | 0 <= t < |tr[i].threads| :: tr[i].threads[t].Idle?
    ensures tr[i].kernel == 0 && 0 <= tr[i].count == tr[i].initial + tr[i].signalled - tr[i].granted
  {
    AlwaysBalanced(tr, i);
    TotalZero(tr[i].threads, Waiting);
    TotalZero(tr[i].threads, Owed);
  }

  // ------------------------------------------------------------------ what a call gets

  predicate InCall(pc: Pc)
  {
    || pc.Load? || pc.Try? || pc.Spin? || pc.Spun? || pc.Sub? || pc.Kernel? || pc.Cancel? || pc.Cancelling?
    || pc.Return?
  }

  /** The call comes back with less than it asked for, or has seen that there is nothing. */
  predicate Short(pc: Pc) { (pc.Return? && pc.c.got < pc.c.max) || (pc.Try? && pc.seen <= 0) }

  /** What any step, of this thread or another, does to a call in progress. */
  ghost predicate GoesOn(s: State, t: nat, s': State)
  {
    && t < |s.threads| == |s'.threads|
    && (InCall(s.threads[t]) && InCall(s'.threads[t]) ==>
          && s'.threads[t].c.max == s.threads[t].c.max
          && (Short(s'.threads[t]) ==> Short(s.threads[t]) || s.count <= 0 || s'.count <= 0))
    && (InCall(s.threads[t]) && !InCall(s'.threads[t]) ==> s.threads[t].Return? && s'.threads[t].Idle?)
  }

  lemma OwnStep(s: State, t: nat, s': State)
    requires ThreadStep(s, t, s') && CallOk(s.threads[t])
    ensures GoesOn(s, t, s')
  {
    if SignalStep(s, t, s') {
      assert !InCall(s.threads[t]);
    }
  }

  lemma OtherStep(s: State, t: nat, u: nat, s': State)
    requires ThreadStep(s, u, s') && t < |s.threads| && t != u
    ensures |s'.threads| == |s.threads| && s'.threads[t] == s.threads[t]
  {}

  lemma CallGoesOn(s: State, t: nat, s': State)
    requires Ledger(s) && Next(s, s') && t < |s.threads|
    ensures GoesOn(s, t, s')
  {
    var u: nat :| ThreadStep(s, u, s');
    if u == t { OwnStep(s, t, s'); } else { OtherStep(s, t, u, s'); }
  }

  /** There was no permit at some point from j + 1 to i. */
  ghost predicate NoneAt(tr: seq<State>, j: nat, i: nat) { exists k :: j < k <= i < |tr| && tr[k].count <= 0 }

  lemma {:induction false} ShortMeansNone(tr: seq<State>, j: nat, i: nat, t: nat, max: nat)
    requires j < i < |tr| && t < |tr[j + 1].threads|
    requires tr[j + 1].threads[t].Load? && tr[j + 1].threads[t].c.max == max
    requires forall k | j < k < i :: GoesOn(tr[k], t, tr[k + 1])
    requires forall k | j < k <= i :: t < |tr[k].threads| && InCall(tr[k].threads[t])
    ensures InCall(tr[i].threads[t]) && tr[i].threads[t].c.max == max
    ensures Short(tr[i].threads[t]) ==> NoneAt(tr, j, i)
  {
    if i > j + 1 {
      ShortMeansNone(tr, j, i - 1, t, max);
      assert GoesOn(tr[i - 1], t, tr[i]);
      NoneMore(tr, j, i);
    }
  }

  lemma NoneMore(tr: seq<State>, j: nat, i: nat)
    requires j + 1 < i < |tr|
    ensures NoneAt(tr, j, i - 1) || tr[i - 1].count <= 0 || tr[i].count <= 0 ==> NoneAt(tr, j, i)
  {}

  lemma AllGoOn(tr: seq<State>, t: nat, j: nat, i: nat)
    requires Execution(tr) && j < i < |tr| && forall k | j < k <= i :: t < |tr[k].threads|
    ensures forall k | j < k < i :: GoesOn(tr[k], t, tr[k + 1])
  {
    forall k | j < k < i ensures GoesOn(tr[k], t, tr[k + 1]) {
      AlwaysBalanced(tr, k);
      assert Next(tr[k], tr[k + 1]);
      CallGoesOn(tr[k], t, tr[k + 1]);
    }
  }

  /** A call, blocking or not, comes back with fewer permits than it asked for only if there
      was none left at some point of the call, in any interleaving. */
  lemma ShortOnlyWhenNone(tr: seq<State>, j: nat, i: nat, t: nat, max: nat)
    requires Execution(tr) && j < i < |tr| && t < |tr[j + 1].threads|
    requires tr[j + 1].threads[t].Load? && tr[j + 1].threads[t].c.max == max
    requires forall k | j < k <= i :: t < |tr[k].threads| && InCall(tr[k].threads[t])
    requires tr[i].threads[t].Return?
    ensures tr[i].threads[t].c.max == max && (tr[i].threads[t].c.got < max ==> NoneAt(tr, j, i))
  {
    AllGoOn(tr, t, j, i);
    ShortMeansNone(tr, j, i, t, max);
  }

  /** There is a permit for the taking: the count the thread saw, and it is still that; a
      positive count to decrement; or a post in the kernel, also for a thread that has timed
      out and finds its decrement settled. */
  predicate Due(s: State, pc: Pc)
  {
    match pc
    case Try(c, seen) => s.count == seen > 0 && c.got < c.max
    case Spun(c, seen) => s.count == seen > 0
    case Sub(c) => s.count > 0
    case Kernel(c) => s.kernel > 0
    case Cancelling(c, seen) => seen >= 0 && s.kernel > 0
    case _ => false
  }

  /** No thread is ever stuck, and one for which there is a permit can take it. A thread that
      has timed out and finds its decrement unsettled can take it back and return, and a
      spinning thread can look again or give up spinning. */
  lemma CanStep(tr: seq<State>, i: nat, t: nat) returns (s': State)
    requires Execution(tr) && i < |tr| && t < |tr[i].threads|
    ensures ThreadStep(tr[i], t, s') && |s'.threads| == |tr[i].threads|
    ensures Due(tr[i], tr[i].threads[t]) ==> s'.granted > tr[i].granted
    ensures tr[i].threads[t].Cancelling? && tr[i].threads[t].seen == tr[i].count < 0 ==>
      s'.threads[t] == Return(tr[i].threads[t].c) && s'.count == tr[i].count + 1
    ensures tr[i].threads[t].Spin? ==>
      && ThreadStep(tr[i], t, Goto(tr[i], t, Spun(tr[i].threads[t].c, tr[i].count)))
      && ThreadStep(tr[i], t, Goto(tr[i], t, Sub(tr[i].threads[t].c)))
  {
    AlwaysBalanced(tr, i);
    s' := StepOf(tr[i], t);
  }

  lemma StepOf(s: State, t: nat) returns (s': State)
    requires t < |s.threads| && CallOk(s.threads[t])
    ensures ThreadStep(s, t, s') && |s'.threads| == |s.threads|
    ensures Due(s, s.threads[t]) ==> s'.granted > s.granted
    ensures s.threads[t].Cancelling? && s.threads[t].seen == s.count < 0 ==>
      s'.threads[t] == Return(s.threads[t].c) && s'.count == s.count + 1
  {
    match s.threads[t]
    case Idle => s' := Goto(s, t, Signal(0));
    case Load(c) => s' := Goto(s, t, Try(c, s.count));
    case Try(c, seen) =>
      s' := if s.count == seen > 0 then Exchanged(s, t, c, seen)
            else if seen > 0 then Goto(s, t, Try(c, s.count))
            else Goto(s, t, if c.wait && c.max > 0 then Spin(c) else Return(c));
    case Spin(c) => s' := Goto(s, t, Sub(c));
    case Spun(c, seen) =>
      s' := if seen > 0 && s.count == seen then Exchanged(s, t, c, seen) else Goto(s, t, Spin(c));
    case Sub(c) =>
      s' := if s.count > 0 then Acquired(s, t, c).(count := s.count - 1)
            else Goto(s, t, Kernel(c)).(count := s.count - 1);
    case Kernel(c) =>
      s' := if s.kernel > 0 then Acquired(s, t, c).(kernel := s.kernel - 1) else Goto(s, t, Cancel(c));
    case Cancel(c) => s' := Goto(s, t, Cancelling(c, s.count));
    case Cancelling(c, seen) =>
      s' := if seen >= 0 && s.kernel > 0 then Acquired(s, t, c).(kernel := s.kernel - 1)
            else if seen < 0 && s.count == seen then Goto(s, t, Return(c)).(count := s.count + 1)
            else Goto(s, t, Cancel(c));
    case Return(c) => s' := Goto(s, t, Idle);
    case Signal(n) =>
      var k := ToRelease(s.count, n);
      s' := Goto(s, t, if k > 0 then Post(k) else Idle).(count := s.count + n, signalled := s.signalled + n);
    case Post(k) => s' := Goto(s, t, if k > 1 then Post(k - 1) else Idle).(kernel := s.kernel + 1);
  }

  /** When a positive count is exchanged, the call takes what it still wants or all there is,
      and exactly that leaves the count. */
  lemma ExchangeTakes(tr: seq<State>, i: nat, t: nat)
    requires Execution(tr) && i + 1 < |tr| && ThreadStep(tr[i], t, tr[i + 1])
    requires (tr[i].threads[t].Try? || tr[i].threads[t].Spun?) && tr[i + 1].granted != tr[i].granted
    requires t < |tr[i + 1].threads|
    ensures tr[i + 1].threads[t].Return? && tr[i].count > 0
    ensures var c, c' := tr[i].threads[t].c, tr[i + 1].threads[t].c;
      && c'.max == c.max
      && (c'.got == c.max || (c'.got == c.got + tr[i].count < c.max))
      && tr[i + 1].count == tr[i].count - (c'.got - c.got)
  {
    AlwaysBalanced(tr, i);
    assert CallOk(tr[i].threads[t]);
  }
}
