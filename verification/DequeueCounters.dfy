/** The four counters every producer of the concurrent queue shares with its consumers.
    A consumer first over-claims on `dequeueOptimisticCount`, then compares its ticket
    with the tail, pays back what it cannot have on `dequeueOvercommit`, and only then
    takes indices from `headIndex`. Each atomic access is one step; indices are unbounded
    here, and module Circular relates them to the 64-bit ones. */
module DequeueCounters {
  import opened Totals

  datatype Pc =
    | Idle
    | SawTail(max: nat, tail: int)                    // about to load dequeueOvercommit
    | SawOver(max: nat, tail: int, over: int)         // about to load dequeueOptimisticCount
    | Ready(desired: nat, over: int)                  // about to add to dequeueOptimisticCount
    | Ticket(desired: nat, over: int, mine: int)      // about to reload the tail
    | Repay(amount: nat, granted: nat)                // about to add to dequeueOvercommit
    | Claim(granted: nat)                             // about to add to headIndex
    | Reading(first: nat, count: nat)                 // has the indices first .. first+count

  /** One completed addition to `headIndex`. */
  datatype Grant = Grant(who: nat, first: nat, count: nat)

  datatype State = State(
    tail: nat, head: nat, optimistic: nat, overcommit: nat,
    threads: seq<Pc>,
    grants: seq<Grant>)        // history, oldest first

  // ------------------------------------------------------------------ steps

  function Goto(s: State, t: nat, pc: Pc): State
    requires t < |s.threads|
  { s.(threads := s.threads[t := pc]) }

  /** After the tail is reloaded: what the ticket is worth. A ticket for no elements at
      all still claims, and claims nothing, when there are elements. */
  function Decide(desired: nat, over: int, mine: int, tail: nat): Pc
  {
    var actual := tail - (mine - over);
    if actual <= 0 then Repay(desired, 0)
    else if actual < desired then Repay(desired - actual, actual)
    else Claim(desired)
  }

  /** `dequeue` is `dequeue_bulk` with max = 1: both tests coincide there. Nothing stops a
      caller from asking for max = 0. */
  ghost predicate ThreadStep(s: State, t: nat, s': State)
  {
    t < |s.threads| &&
    match s.threads[t]
    case Idle => exists max: nat :: s' == Goto(s, t, SawTail(max, s.tail))
    case SawTail(max, tail) => s' == Goto(s, t, SawOver(max, tail, s.overcommit))
    case SawOver(max, tail, over) =>
      var desired := tail - (s.optimistic - over);
      s' == Goto(s, t, if desired > 0 then Ready(if desired < max then desired else max, over) else Idle)
    case Ready(desired, over) =>
      s' == Goto(s, t, Ticket(desired, over, s.optimistic)).(optimistic := s.optimistic + desired)
    case Ticket(desired, over, mine) => s' == Goto(s, t, Decide(desired, over, mine, s.tail))
    case Repay(amount, granted) =>
      s' == Goto(s, t, if granted > 0 then Claim(granted) else Idle).(overcommit := s.overcommit + amount)
    case Claim(granted) =>
      s' == Goto(s, t, Reading(s.head, granted))
              .(head := s.head + granted, grants := s.grants + [Grant(t, s.head, granted)])
    case Reading(_, _) => s' == Goto(s, t, Idle)
  }

  /** The single producer publishes n more elements. */
  ghost predicate Publish(s: State, n: nat, s': State) { s' == s.(tail := s.tail + n) }

  ghost predicate Init(s: State)
  {
    && s.tail == s.head == s.optimistic == s.overcommit == 0 && s.grants == []
    && forall t | 0 <= t < |s.threads| :: s.threads[t] == Idle
  }

  ghost predicate Next(s: State, s': State)
  {
    (exists t :: ThreadStep(s, t, s')) || (exists n :: Publish(s, n, s'))
  }

  ghost predicate Execution(tr: seq<State>)
  {
    && tr != [] && Init(tr[0])
    && forall i | 0 <= i < |tr| - 1 :: Next(tr[i], tr[i + 1])
  }

  // ------------------------------------------------------------------ what is observed

  /** The granted ranges lie end to end from 0 up to the head. */
  ghost predicate Tiled(gs: seq<Grant>, head: nat)
  {
    if gs == [] then head == 0
    else
      var g := gs[|gs| - 1];
      head == g.first + g.count && Tiled(gs[..|gs| - 1], g.first)
  }

  predicate Covers(g: Grant, i: nat) { g.first <= i < g.first + g.count }

  /** The part of the optimistic count a thread has not turned into head or overcommit. */
  function Outstanding(pc: Pc): int
  {
    match pc
    case Ticket(desired, _, _) => desired
    case Repay(amount, granted) => amount + granted
    case Claim(granted) => granted
    case _ => 0
  }

  function Promised(pc: Pc): int { if pc.Repay? || pc.Claim? then pc.granted else 0 }

  ghost predicate Disjoint(p: Pc, q: Pc)
  {
    p.Reading? && q.Reading? ==> p.first + p.count <= q.first || q.first + q.count <= p.first
  }

  /** What holds in every reachable state. */
  ghost predicate Safe(s: State)
  {
    // grants made or promised never pass the tail
    && s.head + Total(s.threads, Promised) <= s.tail
    // every index below the head went to exactly one consumer, in order
    && Tiled(s.grants, s.head)
    // over-claims are repaid exactly
    && s.optimistic == s.overcommit + s.head + Total(s.threads, Outstanding)
    // indices being read are claimed, and by one thread each; even an empty claim is made
    // only after something was published
    && (forall t | 0 <= t < |s.threads| && s.threads[t].Reading? ::
          s.threads[t].first + s.threads[t].count <= s.head && s.tail > 0)
    && (forall t, u | 0 <= t < u < |s.threads| :: Disjoint(s.threads[t], s.threads[u]))
  }

  // ------------------------------------------------------------------ the invariant

  /** A ticket, in the order the optimistic count was increased. */
  datatype Entry = Entry(desired: nat, decided: bool, grant: nat, repaid: nat)

  function Desired(e: Entry): int { e.desired }
  function Repaid(e: Entry): int { e.repaid }
  function Granted(e: Entry): int { if e.decided then e.grant else 0 }
  /** The most this ticket can still bring. */
  function Most(e: Entry): int { if e.decided then e.grant else e.desired }

  /** `log` holds the tickets; `slot[t]` is the ticket of thread t while it has one. */
  datatype Ghosts = Ghosts(log: seq<Entry>, slot: seq<nat>)

  predicate Ticketed(pc: Pc) { pc.Ticket? || pc.Repay? }

  ghost predicate EntryOk(e: Entry)
  {
    if e.decided then e.grant + e.repaid <= e.desired else e.repaid == 0
  }

  /** The tickets up to a successful one cannot together bring more than the tail. */
  ghost predicate Covered(log: seq<Entry>, tail: nat)
  {
    forall k | 0 <= k < |log| && log[k].decided && log[k].grant > 0 ::
      Total(log[..k + 1], Most) <= tail
  }

  ghost predicate ThreadOk(s: State, g: Ghosts, t: nat)
    requires t < |s.threads| == |g.slot|
  {
    match s.threads[t]
    case SawOver(_, _, over) => over <= s.overcommit
    case Ready(_, over) => over <= s.overcommit
    case Ticket(desired, over, mine) =>
      var k := g.slot[t];
      && k < |g.log| && !g.log[k].decided && g.log[k].desired == desired
      && mine == Total(g.log[..k], Desired) && over <= Total(g.log[..k], Repaid)
    case Repay(amount, granted) =>
      var k := g.slot[t];
      && k < |g.log| && g.log[k].decided && g.log[k].grant == granted
      && g.log[k].repaid == 0 && amount + granted == g.log[k].desired && (granted > 0 ==> s.tail > 0)
    case Claim(_) => s.tail > 0
    case Reading(_, _) => s.tail > 0
    case _ => true
  }

  ghost predicate Inv(s: State, g: Ghosts)
  {
    && |g.slot| == |s.threads|
    && s.optimistic == Total(g.log, Desired) && s.overcommit == Total(g.log, Repaid)
    && s.head + Total(s.threads, Promised) == Total(g.log, Granted)
    && Covered(g.log, s.tail)
    && (forall k | 0 <= k < |g.log| :: EntryOk(g.log[k]))
    && (forall t: nat | t < |s.threads| :: ThreadOk(s, g, t))
    && (forall t, u | 0 <= t < u < |s.threads| && Ticketed(s.threads[t]) && Ticketed(s.threads[u]) ::
          g.slot[t] != g.slot[u])
  }

  // ------------------------------------------------------------------ sums over tickets

  /** What earlier tickets can still bring is at most what they asked for less what they repaid. */
  lemma {:induction false} MostBelow(log: seq<Entry>)
    requires forall k | 0 <= k < |log| :: EntryOk(log[k])
    ensures Total(log, Most) + Total(log, Repaid) <= Total(log, Desired)
    ensures 0 <= Total(log, Granted) <= Total(log, Most)
  {
    if log != [] {
      MostBelow(log[..|log| - 1]);
    }
  }

  /** All grants together stay below the tail: look at the last successful ticket. */
  lemma {:induction false} GrantsCovered(log: seq<Entry>, tail: nat)
    requires Covered(log, tail) && forall k | 0 <= k < |log| :: EntryOk(log[k])
    ensures Total(log, Granted) <= tail
  {
    if log != [] {
      var last := |log| - 1;
      if log[last].decided && log[last].grant > 0 {
        assert log[..last + 1] == log;
        MostBelow(log);
      } else {
        forall k | 0 <= k < last && log[k].decided && log[k].grant > 0
          ensures Total(log[..last][..k + 1], Most) <= tail
        {
          assert log[..last][..k + 1] == log[..k + 1];
        }
        GrantsCovered(log[..last], tail);
      }
    }
  }

  /** Replacing ticket j changes a prefix sum by the change of weight, if j is in the prefix. */
  lemma PrefixUpdate(log: seq<Entry>, j: nat, e: Entry, k: nat, w: Entry -> int)
    requires j < |log| && k <= |log|
    ensures Total(log[j := e][..k], w)
         == Total(log[..k], w) + (if j < k then w(e) - w(log[j]) else 0)
  {
    if j < k {
      assert log[j := e][..k] == log[..k][j := e];
      TotalUpdate(log[..k], j, e, w);
    } else {
      assert log[j := e][..k] == log[..k];
    }
  }

  lemma AppendTotal(log: seq<Entry>, e: Entry, w: Entry -> int)
    ensures Total(log + [e], w) == Total(log, w) + w(e)
  {
    assert (log + [e])[..|log|] == log;
  }

  // ------------------------------------------------------------------ every step keeps it

  /** Thread t moves; the tickets stay, and so do the counters except the head. */
  lemma MoveKeeps(s: State, g: Ghosts, t: nat, s': State)
    requires Inv(s, g) && t < |s.threads| == |s'.threads| && s'.threads == s.threads[t := s'.threads[t]]
    requires s'.optimistic == s.optimistic && s'.overcommit == s.overcommit && s'.tail == s.tail
    requires s'.head + Promised(s'.threads[t]) == s.head + Promised(s.threads[t])
    requires !Ticketed(s'.threads[t]) && ThreadOk(s', g, t)
    ensures Inv(s', g)
  {
    TotalUpdate(s.threads, t, s'.threads[t], Promised);
    forall u: nat | u < |s'.threads| ensures ThreadOk(s', g, u) {
      assert ThreadOk(s, g, u);
    }
  }

  /** Taking a ticket: the entry goes to the end of the log. */
  lemma TicketKeeps(s: State, g: Ghosts, t: nat, s': State) returns (g': Ghosts)
    requires Inv(s, g) && ThreadStep(s, t, s') && s.threads[t].Ready?
    ensures Inv(s', g')
  {
    var e := Entry(s.threads[t].desired, false, 0, 0);
    g' := Ghosts(g.log + [e], g.slot[t := |g.log|]);
    TicketSums(s, g, t, s', e);
    AppendCovered(g.log, e, s.tail);
    AppendOk(g.log, e);
    TicketOrder(s, g, t, s', g');
    forall u: nat | u < |s'.threads| ensures ThreadOk(s', g', u) {
      assert ThreadOk(s, g, u);
      AppendSeen(s, g, t, s', g', u);
    }
  }

  lemma TicketSums(s: State, g: Ghosts, t: nat, s': State, e: Entry)
    requires ThreadStep(s, t, s') && s.threads[t].Ready? && e == Entry(s.threads[t].desired, false, 0, 0)
    requires s.optimistic == Total(g.log, Desired) && s.overcommit == Total(g.log, Repaid)
    requires s.head + Total(s.threads, Promised) == Total(g.log, Granted)
    ensures s'.optimistic == Total(g.log + [e], Desired) && s'.overcommit == Total(g.log + [e], Repaid)
    ensures s'.head + Total(s'.threads, Promised) == Total(g.log + [e], Granted)
  {
    AppendTotal(g.log, e, Desired);
    AppendTotal(g.log, e, Repaid);
    AppendTotal(g.log, e, Granted);
    TotalUpdate(s.threads, t, s'.threads[t], Promised);
  }

  lemma AppendOk(log: seq<Entry>, e: Entry)
    requires (forall k | 0 <= k < |log| :: EntryOk(log[k])) && EntryOk(e)
    ensures forall k | 0 <= k < |log + [e]| :: EntryOk((log + [e])[k])
  {}

  lemma AppendSeen(s: State, g: Ghosts, t: nat, s': State, g': Ghosts, u: nat)
    requires ThreadStep(s, t, s') && s.threads[t].Ready? && u < |s.threads| == |g.slot|
    requires g' == Ghosts(g.log + [Entry(s.threads[t].desired, false, 0, 0)], g.slot[t := |g.log|])
    requires s.optimistic == Total(g.log, Desired) && s.overcommit == Total(g.log, Repaid)
    requires ThreadOk(s, g, u)
    ensures ThreadOk(s', g', u)
  {
    if u == t {
      assert g'.log[..|g.log|] == g.log;
    } else if s.threads[u].Ticket? {
      assert g'.log[..g.slot[u]] == g.log[..g.slot[u]];
    }
  }

  lemma AppendCovered(log: seq<Entry>, e: Entry, tail: nat)
    requires Covered(log, tail) && !e.decided
    ensures Covered(log + [e], tail)
  {
    forall k | 0 <= k < |log + [e]| && (log + [e])[k].decided && (log + [e])[k].grant > 0
      ensures Total((log + [e])[..k + 1], Most) <= tail
    {
      assert (log + [e])[..k + 1] == log[..k + 1];
    }
  }

  lemma TicketOrder(s: State, g: Ghosts, t: nat, s': State, g': Ghosts)
    requires Inv(s, g) && t < |s.threads| == |s'.threads| && s'.threads == s.threads[t := s'.threads[t]]
    requires g'.slot == g.slot[t := |g.log|]
    ensures forall a, b | 0 <= a < b < |s'.threads| && Ticketed(s'.threads[a]) && Ticketed(s'.threads[b]) ::
      g'.slot[a] != g'.slot[b]
  {
    forall u: nat | u < |s.threads| && Ticketed(s.threads[u]) ensures g.slot[u] < |g.log| {
      assert ThreadOk(s, g, u);
    }
  }

  /** Replacing a thread's own entry by one that can bring no more keeps every other
      ticket's view and the coverage of the successful tickets. */
  lemma EntryChange(s: State, g: Ghosts, t: nat, e: Entry)
    requires Inv(s, g) && t < |s.threads| && Ticketed(s.threads[t]) && g.slot[t] < |g.log|
    requires EntryOk(e) && e.desired == g.log[g.slot[t]].desired && e.repaid >= g.log[g.slot[t]].repaid
    requires Most(e) <= Most(g.log[g.slot[t]])
    requires e.decided && e.grant > 0 && !g.log[g.slot[t]].decided ==>
      Total(g.log[..g.slot[t]], Most) + e.grant <= s.tail
    requires g.log[g.slot[t]].decided ==> e.decided && e.grant == g.log[g.slot[t]].grant
    ensures Covered(g.log[g.slot[t] := e], s.tail)
  {
    var j := g.slot[t];
    var log' := g.log[j := e];
    forall k | 0 <= k < |log'| && log'[k].decided && log'[k].grant > 0
      ensures Total(log'[..k + 1], Most) <= s.tail
    {
      PrefixUpdate(g.log, j, e, k + 1, Most);
      if k == j {
        assert g.log[..j + 1][..j] == g.log[..j];
      }
    }
  }

  lemma OthersSee(s: State, g: Ghosts, t: nat, e: Entry, s': State, g': Ghosts)
    requires Inv(s, g) && t < |s.threads| == |s'.threads| && Ticketed(s.threads[t]) && g.slot[t] < |g.log|
    requires s'.threads == s.threads[t := s'.threads[t]]
    requires s'.overcommit >= s.overcommit && s'.tail == s.tail && g' == g.(log := g.log[g.slot[t] := e])
    requires e.desired == g.log[g.slot[t]].desired && e.repaid >= g.log[g.slot[t]].repaid
    ensures forall u: nat | u < |s.threads| && u != t :: ThreadOk(s', g', u)
  {
    forall u: nat | u < |s.threads| && u != t ensures ThreadOk(s', g', u) {
      assert ThreadOk(s, g, u);
      if s.threads[u].Ticket? {
        assert g.slot[u] != g.slot[t];
        PrefixUpdate(g.log, g.slot[t], e, g.slot[u], Desired);
        PrefixUpdate(g.log, g.slot[t], e, g.slot[u], Repaid);
      }
    }
  }

  lemma DecideKeeps(s: State, g: Ghosts, t: nat, s': State) returns (g': Ghosts)
    requires Inv(s, g) && ThreadStep(s, t, s') && s.threads[t].Ticket?
    ensures Inv(s', g')
  {
    var pc := s.threads[t];
    assert ThreadOk(s, g, t);
    var j := g.slot[t];
    var e := g.log[j].(decided := true, grant := Promised(s'.threads[t]));
    g' := g.(log := g.log[j := e]);
    MostBelow(g.log[..j]);
    assert e.grant > 0 ==> e.grant <= s.tail - (pc.mine - pc.over);
    EntryChange(s, g, t, e);
    OthersSee(s, g, t, e, s', g');
    TotalUpdate(s.threads, t, s'.threads[t], Promised);
    TotalUpdate(g.log, j, e, Desired);
    TotalUpdate(g.log, j, e, Repaid);
    TotalUpdate(g.log, j, e, Granted);
    assert ThreadOk(s', g', t);
  }

  lemma RepayKeeps(s: State, g: Ghosts, t: nat, s': State) returns (g': Ghosts)
    requires Inv(s, g) && ThreadStep(s, t, s') && s.threads[t].Repay?
    ensures Inv(s', g')
  {
    assert ThreadOk(s, g, t);
    var j := g.slot[t];
    var e := g.log[j].(repaid := s.threads[t].amount);
    g' := g.(log := g.log[j := e]);
    EntryChange(s, g, t, e);
    OthersSee(s, g, t, e, s', g');
    TotalUpdate(s.threads, t, s'.threads[t], Promised);
    TotalUpdate(g.log, j, e, Desired);
    TotalUpdate(g.log, j, e, Repaid);
    TotalUpdate(g.log, j, e, Granted);
    assert ThreadOk(s', g', t);
  }

  lemma PublishKeeps(s: State, g: Ghosts, n: nat, s': State)
    requires Inv(s, g) && Publish(s, n, s')
    ensures Inv(s', g)
  {
    forall u: nat | u < |s'.threads| ensures ThreadOk(s', g, u) {
      assert ThreadOk(s, g, u);
    }
  }

  lemma StepKeeps(s: State, g: Ghosts, t: nat, s': State) returns (g': Ghosts)
    requires Inv(s, g) && ThreadStep(s, t, s')
    ensures Inv(s', g')
  {
    g' := g;
    match s.threads[t]
    case Ready(_, _) => g' := TicketKeeps(s, g, t, s');
    case Ticket(_, _, _) => g' := DecideKeeps(s, g, t, s');
    case Repay(_, _) => g' := RepayKeeps(s, g, t, s');
    case _ =>
      assert ThreadOk(s, g, t);
      MoveKeeps(s, g, t, s');
  }

  // ------------------------------------------------------------------ the visible invariant

  /** The part of Safe that does not need the tickets. */
  ghost predicate Ledger(s: State)
  {
    && Tiled(s.grants, s.head)
    && s.optimistic == s.overcommit + s.head + Total(s.threads, Outstanding)
    && (forall t | 0 <= t < |s.threads| && s.threads[t].Reading? ::
          s.threads[t].first + s.threads[t].count <= s.head)
    && (forall t, u | 0 <= t < u < |s.threads| :: Disjoint(s.threads[t], s.threads[u]))
  }

  lemma LedgerKeeps(s: State, t: nat, s': State)
    requires Ledger(s) && ThreadStep(s, t, s')
    ensures Ledger(s')
  {
    if s.threads[t].Claim? {
      ClaimLedger(s, t, s');
    } else {
      QuietLedger(s, t, s', s'.threads[t]);
    }
  }

  /** A step that claims nothing only moves amounts between the counters. */
  lemma QuietLedger(s: State, t: nat, s': State, pc: Pc)
    requires Ledger(s) && ThreadStep(s, t, s') && !s.threads[t].Claim? && pc == s'.threads[t]
    ensures Ledger(s')
  {
    TotalUpdate(s.threads, t, pc, Outstanding);
    QuietStep(s, t, s', pc);
  }

  lemma QuietStep(s: State, t: nat, s': State, pc: Pc)
    requires ThreadStep(s, t, s') && !s.threads[t].Claim? && pc == s'.threads[t]
    ensures s'.threads == s.threads[t := pc] && s'.grants == s.grants && s'.head == s.head
    ensures !pc.Reading?
    ensures s'.optimistic - s'.overcommit - Outstanding(pc)
         == s.optimistic - s.overcommit - Outstanding(s.threads[t])
  {}

  lemma ClaimLedger(s: State, t: nat, s': State)
    requires Ledger(s) && ThreadStep(s, t, s') && s.threads[t].Claim?
    ensures Ledger(s')
  {
    TotalUpdate(s.threads, t, s'.threads[t], Outstanding);
    assert s'.grants[..|s.grants|] == s.grants;
    forall u, v | 0 <= u < v < |s'.threads| ensures Disjoint(s'.threads[u], s'.threads[v]) {
      assert Disjoint(s.threads[u], s.threads[v]);
    }
  }

  lemma MakesSafe(s: State, g: Ghosts)
    requires Inv(s, g) && Ledger(s)
    ensures Safe(s)
  {
    GrantsCovered(g.log, s.tail);
    forall t: nat | t < |s.threads| && s.threads[t].Reading? ensures s.tail > 0 {
      assert ThreadOk(s, g, t);
    }
  }

  lemma InitInv(s: State) returns (g: Ghosts)
    requires Init(s)
    ensures Inv(s, g) && Ledger(s)
  {
    g := Ghosts([], seq(|s.threads|, _ => 0));
    TotalZero(s.threads, Promised);
    TotalZero(s.threads, Outstanding);
  }

  lemma NextKeeps(s: State, g: Ghosts, s': State) returns (g': Ghosts)
    requires Inv(s, g) && Ledger(s) && Next(s, s')
    ensures Inv(s', g') && Ledger(s')
  {
    if t: nat :| ThreadStep(s, t, s') {
      LedgerKeeps(s, t, s');
      g' := StepKeeps(s, g, t, s');
    } else {
      var n: nat :| Publish(s, n, s');
      g' := g;
      PublishKeeps(s, g, n, s');
    }
  }

  lemma {:induction false} Reachable(tr: seq<State>, i: nat) returns (g: Ghosts)
    requires Execution(tr) && i < |tr|
    ensures Inv(tr[i], g) && Ledger(tr[i])
  {
    if i == 0 {
      g := InitInv(tr[0]);
    } else {
      g := Reachable(tr, i - 1);
      g := NextKeeps(tr[i - 1], g, tr[i]);
    }
  }

  // ------------------------------------------------------------------ main results

  /** In every state of every execution, with any mix of single and bulk dequeues, the
      indices handed out or promised never pass the tail, tile 0 .. head, and every
      over-claim is accounted for. */
  lemma AlwaysSafe(tr: seq<State>, i: nat)
    requires Execution(tr) && i < |tr|
    ensures Safe(tr[i])
  {
    var g := Reachable(tr, i);
    MakesSafe(tr[i], g);
  }

  /** Tiled ranges name every index below the head exactly once. */
  lemma {:induction false} TiledOnce(gs: seq<Grant>, head: nat, i: nat) returns (k: nat)
    requires Tiled(gs, head) && i < head
    ensures k < |gs| && Covers(gs[k], i)
    ensures forall j | 0 <= j < |gs| && j != k :: !Covers(gs[j], i)
    ensures forall j | 0 <= j < |gs| :: gs[j].first + gs[j].count <= head
  {
    var last := |gs| - 1;
    TiledBelow(gs[..last], gs[last].first);
    if Covers(gs[last], i) {
      k := last;
    } else {
      k := TiledOnce(gs[..last], gs[last].first, i);
    }
  }

  lemma {:induction false} TiledBelow(gs: seq<Grant>, head: nat)
    requires Tiled(gs, head)
    ensures forall j | 0 <= j < |gs| :: gs[j].first + gs[j].count <= head
  {
    if gs != [] {
      TiledBelow(gs[..|gs| - 1], gs[|gs| - 1].first);
    }
  }

  /** Every index below the head was published and granted to exactly one consumer. */
  lemma ExactlyOneConsumer(tr: seq<State>, i: nat, index: nat) returns (k: nat)
    requires Execution(tr) && i < |tr| && index < tr[i].head
    ensures index < tr[i].tail
    ensures k < |tr[i].grants| && Covers(tr[i].grants[k], index)
    ensures forall j | 0 <= j < |tr[i].grants| && j != k :: !Covers(tr[i].grants[j], index)
  {
    AlwaysSafe(tr, i);
    PromisedNat(tr[i].threads);
    k := TiledOnce(tr[i].grants, tr[i].head, index);
  }

  lemma PromisedNat(ts: seq<Pc>)
    ensures Total(ts, Promised) >= 0
  {
    TotalNat(ts, Promised);
  }

  /** When no dequeue is in progress, the effective count equals the head, so the test a
      fresh dequeue makes succeeds exactly when the queue is not empty. */
  lemma QuiescentTestExact(tr: seq<State>, i: nat)
    requires Execution(tr) && i < |tr|
    requires forall t | 0 <= t < |tr[i].threads| :: tr[i].threads[t].Idle? || tr[i].threads[t].Reading?
    ensures tr[i].optimistic - tr[i].overcommit == tr[i].head
    ensures tr[i].optimistic - tr[i].overcommit < tr[i].tail <==> tr[i].head != tr[i].tail
  {
    AlwaysSafe(tr, i);
    TotalZero(tr[i].threads, Outstanding);
    PromisedNat(tr[i].threads);
  }

  // ------------------------------------------------------------------ a dequeue by itself

  /** Every other thread is outside, or reading what it has claimed. */
  ghost predicate Alone(s: State, t: nat)
  {
    t < |s.threads| && forall u | 0 <= u < |s.threads| && u != t :: s.threads[u].Idle? || s.threads[u].Reading?
  }

  /** The steps from i to j are all thread t's. */
  ghost predicate Runs(tr: seq<State>, i: nat, j: nat, t: nat)
  {
    && i <= j < |tr| && (forall k | i <= k <= j :: t < |tr[k].threads|)
    && forall k | i <= k < j :: ThreadStep(tr[k], t, tr[k + 1])
  }

  lemma AloneBalance(s: State, t: nat)
    requires Safe(s) && Alone(s, t)
    ensures s.optimistic == s.overcommit + s.head + Outstanding(s.threads[t]) && s.head <= s.tail
  {
    TotalSingle(s.threads, Outstanding, t);
    PromisedNat(s.threads);
  }

  function Smaller(a: int, b: int): int { if a < b then a else b }

  /** A dequeue that has passed its first test, and whose view of the overcommit count is
      current, gets as many elements as it asked for or as there are, however many were
      taken since that test; it gives up only if there are none, and repays exactly what it
      does not get. */
  lemma ReadyDequeues(tr: seq<State>, i: nat, j: nat, t: nat)
    requires Execution(tr) && Runs(tr, i, j, t) && j >= i + 3 && Alone(tr[i], t)
    requires tr[i].threads[t].Ready? && tr[i].threads[t].over == tr[i].overcommit
    ensures var s, desired := tr[i], tr[i].threads[t].desired;
      && var n := s.tail - s.head;
      && (n == 0 ==> tr[i + 3].threads[t].Idle? && tr[i + 3].head == s.head
                     && tr[i + 3].overcommit == s.overcommit + desired)
      && (n >= desired && n > 0 ==>
            tr[i + 3].threads[t] == Reading(s.head, desired) && tr[i + 3].head == s.head + desired
            && tr[i + 3].overcommit == s.overcommit)
      && (0 < n < desired && j >= i + 4 ==>
            tr[i + 4].threads[t] == Reading(s.head, n) && tr[i + 4].head == s.tail
            && tr[i + 4].overcommit == s.overcommit + (desired - n))
  {
    AlwaysSafe(tr, i);
    AloneBalance(tr[i], t);
    assert ThreadStep(tr[i], t, tr[i + 1]) && ThreadStep(tr[i + 1], t, tr[i + 2]);
    assert ThreadStep(tr[i + 2], t, tr[i + 3]);
    if j >= i + 4 { assert ThreadStep(tr[i + 3], t, tr[i + 4]); }
  }

  /** A dequeue by itself passes its test if and only if there is an element; it then takes
      the oldest ones, as many as it asked for or as there are, and otherwise leaves
      everything as it was. */
  lemma AloneDequeues(tr: seq<State>, i: nat, j: nat, t: nat, max: nat)
    requires Execution(tr) && Runs(tr, i, j, t) && j >= i + 3 && Alone(tr[i], t) && tr[i].threads[t].Idle?
    requires tr[i + 1].threads[t].SawTail? && tr[i + 1].threads[t].max == max
    ensures tr[i + 3].threads[t].Ready? <==> tr[i].head < tr[i].tail
    ensures tr[i].head >= tr[i].tail ==> tr[i + 3] == tr[i]
    ensures tr[i].head < tr[i].tail && j >= i + 6 ==>
      var k := Smaller(max, tr[i].tail - tr[i].head);
      tr[i + 6].threads[t] == Reading(tr[i].head, k) && tr[i + 6].head == tr[i].head + k
  {
    AlwaysSafe(tr, i);
    AloneBalance(tr[i], t);
    assert ThreadStep(tr[i], t, tr[i + 1]) && ThreadStep(tr[i + 1], t, tr[i + 2]);
    assert ThreadStep(tr[i + 2], t, tr[i + 3]);
    if tr[i].head < tr[i].tail {
      assert tr[i + 3].threads[t] == Ready(Smaller(max, tr[i].tail - tr[i].head), tr[i].overcommit);
      if j >= i + 6 { ReadyDequeues(tr, i + 3, j, t); }
    } else {
      assert tr[i + 3].threads == tr[i].threads;
    }
  }

  /** No step of a dequeue ever has to wait for another thread. */
  lemma CanStep(s: State, t: nat) returns (s': State)
    requires t < |s.threads|
    ensures ThreadStep(s, t, s')
  {
    match s.threads[t]
    case Idle => s' := Goto(s, t, SawTail(1, s.tail));
    case SawTail(max, tail) => s' := Goto(s, t, SawOver(max, tail, s.overcommit));
    case SawOver(max, tail, over) =>
      var desired := tail - (s.optimistic - over);
      s' := Goto(s, t, if desired > 0 then Ready(if desired < max then desired else max, over) else Idle);
    case Ready(desired, over) =>
      s' := Goto(s, t, Ticket(desired, over, s.optimistic)).(optimistic := s.optimistic + desired);
    case Ticket(desired, over, mine) => s' := Goto(s, t, Decide(desired, over, mine, s.tail));
    case Repay(amount, granted) =>
      s' := Goto(s, t, if granted > 0 then Claim(granted) else Idle).(overcommit := s.overcommit + amount);
    case Claim(granted) =>
      s' := Goto(s, t, Reading(s.head, granted))
              .(head := s.head + granted, grants := s.grants + [Grant(t, s.head, granted)]);
    case Reading(_, _) => s' := Goto(s, t, Idle);
  }

  // ------------------------------------------------------------------ claims

  function ClaimEnd(s: State, t: nat): nat
    requires t < |s.threads| && s.threads[t].Reading?
  { s.threads[t].first + s.threads[t].count }

  lemma ClaimBelowTail(s: State, t: nat)
    requires Safe(s) && t < |s.threads| && s.threads[t].Reading?
    ensures ClaimEnd(s, t) <= s.head <= s.tail && s.tail > 0
  {
    PromisedNat(s.threads);
  }

  lemma ClaimsApart(s: State, t: nat, u: nat)
    requires Safe(s) && t < |s.threads| && u < |s.threads| && t != u && s.threads[t].Reading?
    ensures s.threads[u].Reading? ==> ClaimEnd(s, t) <= s.threads[u].first || ClaimEnd(s, u) <= s.threads[t].first
  {
    if u < t {
      assert Disjoint(s.threads[u], s.threads[t]);
    } else {
      assert Disjoint(s.threads[t], s.threads[u]);
    }
  }

  lemma CounterFacts(s: State, t: nat, s': State)
    requires ThreadStep(s, t, s')
    ensures s'.tail == s.tail && s'.head >= s.head && |s'.threads| == |s.threads|
    ensures forall u | 0 <= u < |s.threads| && u != t :: s'.threads[u] == s.threads[u]
    ensures s'.threads[t].Reading? ==> s'.threads[t].first == s.head
  {}

  lemma ReadingEnds(s: State, t: nat, s': State)
    requires ThreadStep(s, t, s') && s.threads[t].Reading?
    ensures |s'.threads| == |s.threads| && s'.threads[t].Idle?
  {}

  // ------------------------------------------------------------------ what callers ask for

  /** Every call that has just been made asks for at least n elements. */
  ghost predicate Asks(s: State, n: nat)
  {
    forall t | 0 <= t < |s.threads| && s.threads[t].SawTail? :: s.threads[t].max >= n
  }

  predicate AsksSome(pc: Pc)
  {
    match pc
    case SawTail(max, _) => max > 0
    case SawOver(max, _, _) => max > 0
    case Ready(desired, _) => desired > 0
    case Ticket(desired, _, _) => desired > 0
    case Claim(granted) => granted > 0
    case Reading(_, count) => count > 0
    case _ => true
  }

  /** No call in progress is about to make an empty claim, or has made one. */
  ghost predicate NoneEmpty(s: State) { forall t | 0 <= t < |s.threads| :: AsksSome(s.threads[t]) }

  /** While every call asks for at least one element, no claim is empty. */
  lemma NoneEmptyKeeps(s: State, t: nat, s': State)
    requires NoneEmpty(s) && ThreadStep(s, t, s') && Asks(s', 1)
    ensures NoneEmpty(s')
  {
    forall u | 0 <= u < |s'.threads| ensures AsksSome(s'.threads[u]) {
      assert AsksSome(s.threads[u]);
    }
  }
}
