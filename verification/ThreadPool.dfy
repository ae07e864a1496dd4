/** The draining thread pool: workers take tasks from a queue under a mutex and wait on a
    condition variable while there is nothing to do; clients submit tasks, or shut the pool
    down, and then notify. A critical section is one step; a waiting worker may also wake
    up for no reason. */
module ThreadPool {
  import opened Totals

  type Task = int     // opaque to the pool

  datatype WorkerPc =
    | Ready                // about to lock the mutex and look at the queue
    | Blocked              // waiting on the condition variable
    | Busy(task: Task)
    | Exited

  datatype ClientPc =
    | Outside
    | NotifyOne            // has pushed a task
    | NotifyAll            // has cleared the running flag
    | Joining              // waiting for the workers to exit
    | Returned             // a call of Shutdown has just come back

  datatype State = State(
    tasks: seq<Task>, running: bool, workers: seq<WorkerPc>, clients: seq<ClientPc>,
    // history
    accepted: seq<Task>,              // tasks whose Submit returned true
    started: seq<Task>, done: multiset<Task>)

  function GoWorker(s: State, t: nat, pc: WorkerPc): State
    requires t < |s.workers|
  { s.(workers := s.workers[t := pc]) }

  ghost predicate WorkerStep(s: State, t: nat, s': State)
  {
    && t < |s.workers|
    && match s.workers[t]
       case Ready =>
         if s.tasks != [] then
           s' == GoWorker(s, t, Busy(s.tasks[0])).(tasks := s.tasks[1..], started := s.started + [s.tasks[0]])
         else s' == GoWorker(s, t, if s.running then Blocked else Exited)
       case Blocked => s' == GoWorker(s, t, Ready)               // a spurious wakeup
       case Busy(task) => s' == GoWorker(s, t, Ready).(done := s.done + multiset{task})
       case Exited => false
  }

  function WakeAll(ws: seq<WorkerPc>): (r: seq<WorkerPc>)
    ensures |r| == |ws| && forall i | 0 <= i < |ws| :: r[i] == if ws[i].Blocked? then Ready else ws[i]
  { if ws == [] then [] else WakeAll(ws[..|ws| - 1]) + [if ws[|ws| - 1].Blocked? then Ready else ws[|ws| - 1]] }

  /** `notify_one`: some waiting worker wakes up, if there is one. */
  ghost predicate Notified(ws: seq<WorkerPc>, ws': seq<WorkerPc>)
  {
    || ((forall t | 0 <= t < |ws| :: !ws[t].Blocked?) && ws' == ws)
    || (exists t :: 0 <= t < |ws| && ws[t].Blocked? && ws' == ws[t := Ready])
  }

  ghost predicate ClientStep(s: State, c: nat, s': State)
  {
    && c < |s.clients|
    && match s.clients[c]
       case Outside =>
         || (exists task, ok :: SubmitStep(s, c, task, ok, s'))
         || (s.running && s' == s.(running := false, clients := s.clients[c := NotifyAll]))   // Shutdown
         || EarlyReturn(s, c, s')
       case NotifyOne =>
         Notified(s.workers, s'.workers) && s' == s.(workers := s'.workers, clients := s.clients[c := Outside])
       case NotifyAll => s' == s.(workers := WakeAll(s.workers), clients := s.clients[c := Joining])
       case Joining =>
         && (forall t | 0 <= t < |s.workers| :: s.workers[t].Exited?)
         && s' == s.(clients := s.clients[c := Returned])
       case Returned => s' == s.(clients := s.clients[c := Outside])
  }

  /** Submit by client c; `ok` is what it returns. */
  ghost predicate SubmitStep(s: State, c: nat, task: Task, ok: bool, s': State)
  {
    && c < |s.clients| && s.clients[c].Outside? && ok == s.running
    && s' == if !ok then s
             else s.(tasks := s.tasks + [task], accepted := s.accepted + [task], clients := s.clients[c := NotifyOne])
  }

  /** Shutdown of a pool that has been shut down before comes back at once. */
  ghost predicate EarlyReturn(s: State, c: nat, s': State)
  {
    c < |s.clients| && s.clients[c].Outside? && !s.running && s' == s.(clients := s.clients[c := Returned])
  }

  ghost predicate Init(s: State)
  {
    && s.tasks == s.accepted == s.started == [] && s.done == multiset{} && s.running
    && (forall t | 0 <= t < |s.workers| :: s.workers[t] == Ready)
    && forall c | 0 <= c < |s.clients| :: s.clients[c] == Outside
  }

  ghost predicate Next(s: State, s': State)
  {
    (exists t :: WorkerStep(s, t, s')) || exists c :: ClientStep(s, c, s')
  }

  ghost predicate Execution(tr: seq<State>)
  {
    && tr != [] && Init(tr[0])
    && forall i | 0 <= i < |tr| - 1 :: Next(tr[i], tr[i + 1])
  }

  // ------------------------------------------------------------------ the invariant

  function IsReady(pc: WorkerPc): int { One(pc.Ready?) }
  function WillNotify(pc: ClientPc): int { One(pc.NotifyOne?) }

  /** Whether a worker is running task x. */
  function Runs(x: Task): WorkerPc -> int { (pc: WorkerPc) => One(pc.Busy? && pc.task == x) }

  ghost predicate AnyBlocked(ws: seq<WorkerPc>) { exists t :: 0 <= t < |ws| && ws[t].Blocked? }
  ghost predicate AnyExited(ws: seq<WorkerPc>) { exists t :: 0 <= t < |ws| && ws[t].Exited? }

  ghost predicate Inv(s: State)
  {
    && s.accepted == s.started + s.tasks
    && (forall x: Task :: StartedOk(s, x))
    && (AnyBlocked(s.workers) ==> |s.tasks| <= Total(s.workers, IsReady) + Total(s.clients, WillNotify))
    && (!s.running && AnyBlocked(s.workers) ==> exists c :: 0 <= c < |s.clients| && s.clients[c].NotifyAll?)
    && (AnyExited(s.workers) ==> !s.running && s.tasks == [])
  }

  /** A started task is running or done. */
  ghost predicate StartedOk(s: State, x: Task)
  {
    multiset(s.started)[x] == Total(s.workers, Runs(x)) + s.done[x]
  }

  lemma OneWorker(ws: seq<WorkerPc>, t: nat, pc: WorkerPc)
    requires t < |ws|
    ensures Total(ws[t := pc], IsReady) == Total(ws, IsReady) - IsReady(ws[t]) + IsReady(pc)
    ensures forall x :: Total(ws[t := pc], Runs(x)) == Total(ws, Runs(x)) - Runs(x)(ws[t]) + Runs(x)(pc)
    ensures !pc.Blocked? && AnyBlocked(ws[t := pc]) ==> AnyBlocked(ws)
    ensures !pc.Exited? && AnyExited(ws[t := pc]) ==> AnyExited(ws)
  {
    TotalUpdate(ws, t, pc, IsReady);
    forall x ensures Total(ws[t := pc], Runs(x)) == Total(ws, Runs(x)) - Runs(x)(ws[t]) + Runs(x)(pc) {
      TotalUpdate(ws, t, pc, Runs(x));
    }
    var ws' := ws[t := pc];
    if !pc.Blocked? {
      if u :| 0 <= u < |ws'| && ws'[u].Blocked? { assert ws[u].Blocked?; }
    }
    if !pc.Exited? {
      if u :| 0 <= u < |ws'| && ws'[u].Exited? { assert ws[u].Exited?; }
    }
  }

  /** A worker takes the oldest task. */
  lemma TakeKeeps(s: State, t: nat, s': State)
    requires Inv(s) && WorkerStep(s, t, s') && s.workers[t].Ready? && s.tasks != []
    ensures Inv(s')
  {
    var task := s.tasks[0];
    OneWorker(s.workers, t, Busy(task));
    assert s.tasks == [task] + s.tasks[1..];
    assert (s.started + [task]) + s.tasks[1..] == s.started + s.tasks;
    forall x ensures StartedOk(s', x) {
      assert StartedOk(s, x);
    }
  }

  /** A worker finds nothing to do: it waits, or leaves for good. */
  lemma RestKeeps(s: State, t: nat, s': State)
    requires Inv(s) && WorkerStep(s, t, s') && s.workers[t].Ready? && s.tasks == []
    ensures Inv(s')
  {
    OneWorker(s.workers, t, s'.workers[t]);
    TotalNat(s'.workers, IsReady);
    TotalNat(s'.clients, WillNotify);
    forall x ensures StartedOk(s', x) {
      assert StartedOk(s, x);
    }
  }

  /** A worker finishes its task, or wakes up by itself. */
  lemma BackKeeps(s: State, t: nat, s': State)
    requires Inv(s) && WorkerStep(s, t, s') && (s.workers[t].Busy? || s.workers[t].Blocked?)
    ensures Inv(s')
  {
    OneWorker(s.workers, t, Ready);
    forall x ensures StartedOk(s', x) {
      assert StartedOk(s, x);
    }
  }

  /** A client submits, or clears the running flag. */
  lemma CallKeeps(s: State, c: nat, s': State)
    requires Inv(s) && ClientStep(s, c, s') && s.clients[c].Outside?
    ensures Inv(s')
  {
    if s' != s {
      TotalUpdate(s.clients, c, s'.clients[c], WillNotify);
      if s'.running {
        assert s'.clients[c].NotifyOne?;
        assert s.started + s'.tasks == (s.started + s.tasks) + [s'.tasks[|s.tasks|]];
      } else if s.running {
        assert s'.clients[c].NotifyAll?;
      } else if d :| 0 <= d < |s.clients| && s.clients[d].NotifyAll? {
        assert s'.clients[d].NotifyAll?;
      }
      forall x ensures StartedOk(s', x) {
        assert StartedOk(s, x);
      }
    }
  }

  lemma NotifyOneKeeps(s: State, c: nat, s': State)
    requires Inv(s) && ClientStep(s, c, s') && s.clients[c].NotifyOne?
    ensures Inv(s')
  {
    TotalUpdate(s.clients, c, Outside, WillNotify);
    if d :| 0 <= d < |s.clients| && s.clients[d].NotifyAll? { assert s'.clients[d].NotifyAll?; }
    if t :| 0 <= t < |s.workers| && s.workers[t].Blocked? && s'.workers == s.workers[t := Ready] {
      OneWorker(s.workers, t, Ready);
    }
    forall x ensures StartedOk(s', x) {
      assert StartedOk(s, x);
    }
  }

  lemma {:induction false} WokenRuns(ws: seq<WorkerPc>, x: Task)
    ensures Total(WakeAll(ws), Runs(x)) == Total(ws, Runs(x))
  {
    if ws != [] {
      var last := |ws| - 1;
      assert WakeAll(ws)[..last] == WakeAll(ws[..last]);
      WokenRuns(ws[..last], x);
    }
  }

  lemma NotifyAllKeeps(s: State, c: nat, s': State)
    requires Inv(s) && ClientStep(s, c, s') && s.clients[c].NotifyAll?
    ensures Inv(s')
  {
    if u :| 0 <= u < |s'.workers| && s'.workers[u].Exited? { assert s.workers[u].Exited?; }
    forall x ensures StartedOk(s', x) {
      assert StartedOk(s, x);
      WokenRuns(s.workers, x);
    }
  }

  lemma JoinKeeps(s: State, c: nat, s': State)
    requires Inv(s) && ClientStep(s, c, s') && (s.clients[c].Joining? || s.clients[c].Returned?)
    ensures Inv(s')
  {
    TotalUpdate(s.clients, c, s'.clients[c], WillNotify);
    if d :| 0 <= d < |s.clients| && s.clients[d].NotifyAll? { assert s'.clients[d].NotifyAll?; }
    forall x ensures StartedOk(s', x) {
      assert StartedOk(s, x);
    }
  }

  lemma NextKeeps(s: State, s': State)
    requires Inv(s) && Next(s, s')
    ensures Inv(s')
  {
    if t: nat :| WorkerStep(s, t, s') {
      if s.workers[t].Ready? {
        if s.tasks != [] { TakeKeeps(s, t, s'); } else { RestKeeps(s, t, s'); }
      } else {
        BackKeeps(s, t, s');
      }
    } else {
      var c: nat :| ClientStep(s, c, s');
      match s.clients[c]
      case Outside => CallKeeps(s, c, s');
      case NotifyOne => NotifyOneKeeps(s, c, s');
      case NotifyAll => NotifyAllKeeps(s, c, s');
      case Joining => JoinKeeps(s, c, s');
      case Returned => JoinKeeps(s, c, s');
    }
  }

  lemma {:induction false} Reachable(tr: seq<State>, i: nat)
    requires Execution(tr) && i < |tr|
    ensures Inv(tr[i])
  {
    if i == 0 {
      forall x ensures StartedOk(tr[0], x) {
        TotalZero(tr[0].workers, Runs(x));
      }
    } else {
      Reachable(tr, i - 1);
      NextKeeps(tr[i - 1], tr[i]);
    }
  }

  // ------------------------------------------------------------------ main results

  /** Tasks start in submission order, and every accepted task is queued, running or done,
      as many times as it was accepted. */
  lemma TasksConserved(tr: seq<State>, i: nat)
    requires Execution(tr) && i < |tr|
    ensures tr[i].accepted == tr[i].started + tr[i].tasks
    ensures forall x: Task :: AcceptedOk(tr[i], x)
  {
    Reachable(tr, i);
    forall x: Task ensures AcceptedOk(tr[i], x) {
      assert StartedOk(tr[i], x);
    }
  }

  ghost predicate AcceptedOk(s: State, x: Task)
  {
    multiset(s.accepted)[x] == multiset(s.tasks)[x] + Total(s.workers, Runs(x)) + s.done[x]
  }

  ghost predicate AllExited(s: State) { forall t | 0 <= t < |s.workers| :: s.workers[t].Exited? }

  /** Once every worker has exited, all accepted tasks have run exactly once, if and only
      if the pool has a worker or never accepted anything. */
  lemma DrainsIffWorkers(tr: seq<State>, i: nat)
    requires Execution(tr) && i < |tr| && AllExited(tr[i])
    ensures tr[i].done == multiset(tr[i].accepted) <==> |tr[i].workers| > 0 || tr[i].accepted == []
  {
    if |tr[i].workers| > 0 {
      ExitedIsDrained(tr, i);
    } else {
      NoWorkersNothingDone(tr, i);
      if tr[i].accepted != [] { assert tr[i].accepted[0] in multiset(tr[i].accepted); }
    }
  }

  lemma ExitedIsDrained(tr: seq<State>, i: nat)
    requires Execution(tr) && i < |tr| && AllExited(tr[i]) && |tr[i].workers| > 0
    ensures tr[i].done == multiset(tr[i].accepted) && tr[i].tasks == [] && !tr[i].running
  {
    TasksConserved(tr, i);
    Reachable(tr, i);
    var s := tr[i];
    assert s.workers[0].Exited?;
    forall x ensures s.done[x] == multiset(s.accepted)[x] {
      assert AcceptedOk(s, x);
      TotalZero(s.workers, Runs(x));
    }
  }

  lemma {:induction false} NoWorkersNothingDone(tr: seq<State>, i: nat)
    requires Execution(tr) && i < |tr| && |tr[i].workers| == 0
    ensures tr[i].done == multiset{}
  {
    if i > 0 {
      assert Next(tr[i - 1], tr[i]);
      NoWorkersNothingDone(tr, i - 1);
    }
  }

  /** The join in Shutdown returns only on a drained pool, to which nothing is ever added. */
  lemma ShutdownReturnsDrained(tr: seq<State>, i: nat, c: nat)
    requires Execution(tr) && i + 1 < |tr| && c < |tr[i].clients| && tr[i].clients[c].Joining?
    requires ClientStep(tr[i], c, tr[i + 1]) && |tr[i].workers| > 0
    ensures tr[i + 1].done == multiset(tr[i + 1].accepted) && tr[i + 1].tasks == [] && !tr[i + 1].running
  {
    ExitedIsDrained(tr, i);
  }

  // ------------------------------------------------------------------ several calls of Shutdown

  ghost predicate Drained(s: State) { s.tasks == [] && s.done == multiset(s.accepted) }

  /** A call of Shutdown that found the pool running has not come back yet. */
  ghost predicate ShuttingDown(s: State)
  {
    exists c :: 0 <= c < |s.clients| && Waits(s.clients[c])
  }

  predicate Waits(pc: ClientPc) { pc.NotifyAll? || pc.Joining? }

  /** No call of Shutdown is made while another is still waiting. */
  ghost predicate OneAtATime(tr: seq<State>)
  {
    forall i | 0 <= i < |tr| - 1 :: !Overlaps(tr[i], tr[i + 1])
  }

  ghost predicate Overlaps(s: State, s': State)
  {
    ShuttingDown(s) && exists c: nat :: EarlyReturn(s, c, s')
  }

  ghost predicate ReturnsDrained(tr: seq<State>)
  {
    forall i, c | 0 <= i < |tr| && 0 <= c < |tr[i].clients| && tr[i].clients[c].Returned? :: Drained(tr[i])
  }

  /** A drained pool has no task in progress, and stays drained. */
  lemma DrainedStays(s: State, s': State)
    requires Inv(s) && !s.running && Drained(s) && Next(s, s')
    ensures !s'.running && Drained(s')
  {
    if t: nat :| WorkerStep(s, t, s') {
      if s.workers[t].Busy? {
        var x := s.workers[t].task;
        assert StartedOk(s, x);
        assert s.started + [] == s.started;
        TotalAtLeast(s.workers, Runs(x), t);
      }
    } else {
      var c: nat :| ClientStep(s, c, s');
    }
  }

  /** After a shutdown, once no call is waiting, the pool is drained. */
  lemma {:induction false} NoneWaitingIsDrained(tr: seq<State>, i: nat)
    requires Execution(tr) && i < |tr| && |tr[i].workers| > 0 && !tr[i].running && !ShuttingDown(tr[i])
    ensures Drained(tr[i])
  {
    if i > 0 {
      var s, s' := tr[i - 1], tr[i];
      assert Next(s, s');
      Reachable(tr, i - 1);
      if s.running {
        ShutdownBegins(s, s');
      } else if ShuttingDown(s) {
        JoinEnds(s, s');
        ExitedIsDrained(tr, i - 1);
      } else {
        NoneWaitingIsDrained(tr, i - 1);
        DrainedStays(s, s');
      }
    }
  }

  lemma ShutdownBegins(s: State, s': State)
    requires Next(s, s') && s.running && !s'.running
    ensures ShuttingDown(s')
  {
    if c: nat :| ClientStep(s, c, s') {
      assert Waits(s'.clients[c]);
    }
  }

  lemma JoinEnds(s: State, s': State)
    requires Next(s, s') && ShuttingDown(s) && !ShuttingDown(s')
    ensures AllExited(s) && s' == s.(clients := s'.clients)
  {
    var d: nat :| d < |s.clients| && Waits(s.clients[d]);
    StaysWaiting(s, d, s');
  }

  lemma StaysWaiting(s: State, d: nat, s': State)
    requires Next(s, s') && d < |s.clients| && Waits(s.clients[d])
    ensures |s'.clients| == |s.clients|
    ensures Waits(s'.clients[d]) || (AllExited(s) && s' == s.(clients := s'.clients))
  {}

  /** A step by which a call of Shutdown comes back leaves a drained pool, and any other
      leaves a drained pool drained. */
  ghost predicate ReturnsOk(s: State, s': State)
  {
    && |s'.clients| == |s.clients|
    && (!s.running && Drained(s) ==> !s'.running && Drained(s'))
    && (forall c | 0 <= c < |s.clients| && s'.clients[c].Returned? && !s.clients[c].Returned? ::
          !s'.running && Drained(s'))
  }

  lemma AllReturnOk(tr: seq<State>)
    requires Staffed(tr) && OneAtATime(tr)
    ensures forall k | 0 <= k < |tr| - 1 :: ReturnsOk(tr[k], tr[k + 1])
  {
    forall k: nat | k < |tr| - 1 ensures ReturnsOk(tr[k], tr[k + 1]) {
      SameWorkers(tr, k);
      ShapeKept(tr, k);
      if !tr[k].running && Drained(tr[k]) { StaysDrained(tr, k); }
      forall c: nat | c < |tr[k].clients| && tr[k + 1].clients[c].Returned? && !tr[k].clients[c].Returned?
        ensures !tr[k + 1].running && Drained(tr[k + 1])
      {
        ReturnsDrainedNow(tr, k, c);
      }
    }
  }

  lemma {:induction false} ReturnedIsDrained(tr: seq<State>, i: nat, c: nat)
    requires i < |tr| && forall k | 0 <= k < |tr| - 1 :: ReturnsOk(tr[k], tr[k + 1])
    requires c < |tr[i].clients| && tr[i].clients[c].Returned?
    requires c < |tr[0].clients| ==> !tr[0].clients[c].Returned?
    ensures Drained(tr[i]) && !tr[i].running
  {
    if i > 0 {
      assert ReturnsOk(tr[i - 1], tr[i]);
      if tr[i - 1].clients[c].Returned? { ReturnedIsDrained(tr, i - 1, c); }
    }
  }

  lemma ShapeKept(tr: seq<State>, i: nat)
    requires Execution(tr) && i + 1 < |tr|
    ensures |tr[i + 1].workers| == |tr[i].workers| && |tr[i + 1].clients| == |tr[i].clients|
  {
    assert Next(tr[i], tr[i + 1]);
    ShapeStays(tr[i], tr[i + 1]);
  }

  lemma StaysDrained(tr: seq<State>, i: nat)
    requires Execution(tr) && i + 1 < |tr| && !tr[i].running && Drained(tr[i])
    ensures !tr[i + 1].running && Drained(tr[i + 1])
  {
    Reachable(tr, i);
    assert Next(tr[i], tr[i + 1]);
    DrainedStays(tr[i], tr[i + 1]);
  }

  lemma ReturnsDrainedNow(tr: seq<State>, i: nat, c: nat)
    requires Execution(tr) && OneAtATime(tr) && i + 1 < |tr| && |tr[i].workers| > 0
    requires c < |tr[i].clients| == |tr[i + 1].clients| && tr[i + 1].clients[c].Returned? && !tr[i].clients[c].Returned?
    ensures Drained(tr[i + 1]) && !tr[i + 1].running
  {
    var s, s' := tr[i], tr[i + 1];
    assert Next(s, s');
    ReturnedNow(s, c, s');
    if s.clients[c].Joining? {
      ExitedIsDrained(tr, i);
    } else {
      assert !Overlaps(s, s');
      NoneWaitingIsDrained(tr, i);
    }
  }

  lemma ShapeStays(s: State, s': State)
    requires Next(s, s')
    ensures |s'.workers| == |s.workers| && |s'.clients| == |s.clients|
  {}

  lemma ReturnedNow(s: State, c: nat, s': State)
    requires Next(s, s') && c < |s.clients| == |s'.clients| && s'.clients[c].Returned? && !s.clients[c].Returned?
    ensures s' == s.(clients := s'.clients) && (EarlyReturn(s, c, s') || (s.clients[c].Joining? && AllExited(s)))
  {}

  /** A second caller comes back at once, and finds a task that has not even started. */
  lemma SecondCallerEarly() returns (tr: seq<State>)
    ensures Staffed(tr) && !ReturnsDrained(tr)
  {
    var s0 := State([], true, [Ready], [Outside, Outside], [], [], multiset{});
    var s1 := s0.(tasks := [7], accepted := [7], clients := [NotifyOne, Outside]);
    var s2 := s1.(running := false, clients := [NotifyOne, NotifyAll]);
    var s3 := s2.(clients := [Outside, NotifyAll]);
    var s4 := s2.(clients := [Returned, NotifyAll]);
    tr := [s0, s1, s2, s3, s4];
    assert [] + [7] == [7];
    assert SubmitStep(s0, 0, 7, true, s1) && ClientStep(s0, 0, s1);
    assert ClientStep(s1, 1, s2);
    assert Notified(s2.workers, s3.workers);
    assert ClientStep(s2, 0, s3);
    assert EarlyReturn(s3, 0, s4) && ClientStep(s3, 0, s4);
    assert tr[4].clients[0].Returned?;
  }

  /** A run of a pool with workers. */
  ghost predicate Staffed(tr: seq<State>) { Execution(tr) && |tr[0].workers| > 0 }

  /** A pool with workers is drained whenever a call of Shutdown comes back, in all runs
      that may or may not have overlapping calls, if and only if they may not. */
  lemma DrainedIffOneAtATime(overlapping: bool)
    ensures (forall tr: seq<State> | Staffed(tr) && (overlapping || OneAtATime(tr)) :: ReturnsDrained(tr))
            <==> !overlapping
  {
    if overlapping {
      var tr := SecondCallerEarly();
    } else {
      forall tr: seq<State> | Staffed(tr) && OneAtATime(tr) ensures ReturnsDrained(tr) {
        AllReturnOk(tr);
        forall i, c | 0 <= i < |tr| && 0 <= c < |tr[i].clients| && tr[i].clients[c].Returned? ensures Drained(tr[i]) {
          ReturnedIsDrained(tr, i, c);
        }
      }
    }
  }

  lemma {:induction false} SameWorkers(tr: seq<State>, i: nat)
    requires Execution(tr) && i < |tr|
    ensures |tr[i].workers| == |tr[0].workers|
  {
    if i > 0 {
      assert Next(tr[i - 1], tr[i]);
      ShapeStays(tr[i - 1], tr[i]);
      SameWorkers(tr, i - 1);
    }
  }

  /** No lost wakeup: a worker waits only while each queued task has a worker about to look
      at the queue or a notification on its way; and after a shutdown only while the
      notification of everybody is. */
  lemma NoLostWakeup(tr: seq<State>, i: nat)
    requires Execution(tr) && i < |tr| && AnyBlocked(tr[i].workers)
    ensures |tr[i].tasks| <= Total(tr[i].workers, IsReady) + Total(tr[i].clients, WillNotify)
    ensures !tr[i].running ==> exists c :: 0 <= c < |tr[i].clients| && tr[i].clients[c].NotifyAll?
  {
    Reachable(tr, i);
  }

  // ------------------------------------------------------------------ termination

  /** What a worker may still do by itself after a shutdown. */
  function Work(pc: WorkerPc): int
  {
    match pc
    case Ready => 1
    case Blocked => 2
    case Busy(_) => 2
    case Exited => 0
  }

  function Remaining(s: State): int { 3 * |s.tasks| + Total(s.workers, Work) }

  /** After a shutdown every step of a worker brings the end nearer, whatever the order. */
  lemma ShutdownTerminates(s: State, t: nat, s': State)
    requires !s.running && WorkerStep(s, t, s')
    ensures !s'.running && 0 <= Remaining(s') < Remaining(s)
  {
    TotalUpdate(s.workers, t, s'.workers[t], Work);
    TotalNat(s'.workers, Work);
  }

  /** Clients do not put it off: after a shutdown no task is added. */
  lemma ShutdownIsFinal(s: State, c: nat, s': State)
    requires !s.running && ClientStep(s, c, s')
    ensures !s'.running && s'.tasks == s.tasks && s'.accepted == s.accepted && Remaining(s') <= Remaining(s)
  {
    if s.clients[c].NotifyOne? {
      if t :| 0 <= t < |s.workers| && s.workers[t].Blocked? && s'.workers == s.workers[t := Ready] {
        TotalUpdate(s.workers, t, Ready, Work);
      }
    } else if s.clients[c].NotifyAll? {
      WokenWork(s.workers);
    }
  }

  lemma {:induction false} WokenWork(ws: seq<WorkerPc>)
    ensures Total(WakeAll(ws), Work) <= Total(ws, Work)
  {
    if ws != [] {
      var last := |ws| - 1;
      assert WakeAll(ws)[..last] == WakeAll(ws[..last]);
      WokenWork(ws[..last]);
    }
  }

  /** The drain cannot stop short: after a shutdown whose notification has been made, a
      pool in which no worker is busy or about to look at the queue has only exited
      workers, and is drained. */
  lemma StalledIsDrained(tr: seq<State>, i: nat)
    requires Execution(tr) && i < |tr| && !tr[i].running && |tr[i].workers| > 0
    requires forall c | 0 <= c < |tr[i].clients| :: !tr[i].clients[c].NotifyAll?
    requires forall t | 0 <= t < |tr[i].workers| :: tr[i].workers[t].Blocked? || tr[i].workers[t].Exited?
    ensures AllExited(tr[i]) && tr[i].done == multiset(tr[i].accepted) && tr[i].tasks == []
  {
    Reachable(tr, i);
    ExitedIsDrained(tr, i);
  }

  // ------------------------------------------------------------------ what a call does

  predicate Stopping(pc: ClientPc) { pc.NotifyAll? || pc.Joining? }

  /** At most one client is stopping the pool, and none while it is running. */
  ghost predicate OneStopping(s: State)
  {
    && (forall c | 0 <= c < |s.clients| && Stopping(s.clients[c]) :: !s.running)
    && forall c, d | 0 <= c < d < |s.clients| && Stopping(s.clients[c]) :: !Stopping(s.clients[d])
  }

  /** However many threads call Shutdown, only one of them joins the workers. */
  lemma {:induction false} OneJoins(tr: seq<State>, i: nat)
    requires Execution(tr) && i < |tr|
    ensures OneStopping(tr[i])
  {
    if i > 0 {
      OneJoins(tr, i - 1);
      OneStoppingKept(tr[i - 1], tr[i]);
    }
  }

  lemma OneStoppingKept(s: State, s': State)
    requires OneStopping(s) && Next(s, s')
    ensures OneStopping(s')
  {
    if c: nat :| ClientStep(s, c, s') {
      assert s'.clients == s.clients || s'.clients == s.clients[c := s'.clients[c]];
    }
  }

  /** A call of Shutdown that finds the pool running. */
  ghost predicate Stops(s: State, s': State)
  {
    exists c :: 0 <= c < |s.clients| == |s'.clients| && s.clients[c].Outside? && s'.clients[c].NotifyAll?
  }

  lemma StopsIff(s: State, s': State)
    requires Next(s, s')
    ensures s'.running <==> s.running && !Stops(s, s')
  {
    if c: nat :| ClientStep(s, c, s') {
      if s.running && !s'.running { assert s'.clients[c].NotifyAll?; }
    }
  }

  lemma {:induction false} RunningUntilStopped(tr: seq<State>, i: nat)
    requires Execution(tr) && i < |tr|
    ensures tr[i].running <==> forall k | 0 <= k < i :: !Stops(tr[k], tr[k + 1])
  {
    if i > 0 {
      RunningUntilStopped(tr, i - 1);
      assert Next(tr[i - 1], tr[i]);
      StopsIff(tr[i - 1], tr[i]);
    }
  }

  /** Submit is accepted exactly when no Shutdown has been called before; what was
      submitted is then the last in the queue, and otherwise nothing changes. */
  lemma SubmitAccepted(tr: seq<State>, i: nat, c: nat, task: Task, ok: bool)
    requires Execution(tr) && i + 1 < |tr| && SubmitStep(tr[i], c, task, ok, tr[i + 1])
    ensures ok <==> forall k | 0 <= k < i :: !Stops(tr[k], tr[k + 1])
    ensures ok ==> tr[i + 1].tasks == tr[i].tasks + [task] && tr[i + 1].accepted == tr[i].accepted + [task]
    ensures !ok ==> tr[i + 1] == tr[i]
  {
    RunningUntilStopped(tr, i);
  }

  lemma AcceptedStep(s: State, s': State)
    requires Next(s, s')
    ensures s.accepted <= s'.accepted
  {}

  lemma {:induction false} AcceptedGrows(tr: seq<State>, i: nat, m: nat)
    requires Execution(tr) && i <= m < |tr|
    ensures tr[i].accepted <= tr[m].accepted
  {
    if i < m {
      AcceptedGrows(tr, i, m - 1);
      assert Next(tr[m - 1], tr[m]);
      AcceptedStep(tr[m - 1], tr[m]);
    }
  }

  /** What runs in a submission's turn is what was submitted. */
  lemma RunsWhatWasSubmitted(tr: seq<State>, i: nat, m: nat, c: nat, task: Task)
    requires Execution(tr) && i < m < |tr| && SubmitStep(tr[i], c, task, true, tr[i + 1])
    ensures |tr[m].started| > |tr[i].accepted| ==> tr[m].started[|tr[i].accepted|] == task
    ensures |tr[m].started| <= |tr[i].accepted| ==> task in tr[m].tasks
  {
    SubmitAccepted(tr, i, c, task, true);
    AcceptedGrows(tr, i + 1, m);
    TasksConserved(tr, m);
    var n := |tr[i].accepted|;
    assert tr[m].accepted[n] == task;
    if |tr[m].started| <= n { assert tr[m].tasks[n - |tr[m].started|] == task; }
  }

  /** Every worker that has not exited can take a step, unless it waits to be woken; even
      then it may wake by itself. */
  lemma WorkerCanStep(s: State, t: nat) returns (s': State)
    requires t < |s.workers| && !s.workers[t].Exited?
    ensures WorkerStep(s, t, s')
  {
    match s.workers[t]
    case Ready =>
      s' := if s.tasks != [] then
              GoWorker(s, t, Busy(s.tasks[0])).(tasks := s.tasks[1..], started := s.started + [s.tasks[0]])
            else GoWorker(s, t, if s.running then Blocked else Exited);
    case Blocked => s' := GoWorker(s, t, Ready);
    case Busy(task) => s' := GoWorker(s, t, Ready).(done := s.done + multiset{task});
  }
}
