/** The Go worker pool as interleaved atomic steps (pool.go, submit_sync.go). */
module GoPool {

  datatype Config = Config(workers: nat, maxQueue: nat)

  /** Where a goroutine stands between taking a semaphore slot and giving it back. */
  datatype Stage = Waiting | Holding | Active | Tallied | Leaving | Finished | TimedOut

  /** `queued`: it came through the queue and the dispatch loop, not through SubmitSync. */
  datatype Job = Job(queued: bool, stage: Stage)

  /**
   * `passed[i]`: caller i of Submit has seen room in the queue and has not enqueued yet.
   * `carrying`: the dispatch loop holds a task and waits for a slot. `accepted` is a history.
   */
  datatype State = State(
    queue: nat, passed: seq<bool>, carrying: bool, jobs: seq<Job>,
    activeWorkers: int, processed: nat, failed: nat, accepted: nat)

  datatype Event =
    | SubmitCheck(i: nat)
    | SubmitEnqueue(i: nat)
    | TakeTask
    | DispatchAcquire
    | SyncCall
    | SyncAcquire(j: nat)
    | SyncTimeout(j: nat)
    | Begin(j: nat)
    | Complete(j: nat, ok: bool)
    | Deactivate(j: nat)
    | Release(j: nat)

  function Initial(callers: nat): State {
    State(0, seq(callers, _ => false), false, [], 0, 0, 0, 0)
  }

  // ---------------------------------------------------------------- steps

  function Total(jobs: seq<Job>, weight: Job -> nat): nat {
    if jobs == [] then 0 else Total(jobs[..|jobs| - 1], weight) + weight(jobs[|jobs| - 1])
  }

  function Slot(x: Job): nat {
    if x.stage == Holding || x.stage == Active || x.stage == Tallied || x.stage == Leaving then 1 else 0
  }

  function Busy(x: Job): nat { if x.stage == Active || x.stage == Tallied then 1 else 0 }

  function Queued(x: Job): nat { if x.queued then 1 else 0 }

  function Counted(x: Job): nat {
    if x.stage == Tallied || x.stage == Leaving || x.stage == Finished then 1 else 0
  }

  /** Semaphore slots in use. */
  function Occupied(s: State): nat { Total(s.jobs, Slot) }

  function At(s: State, j: nat, stage: Stage): bool { j < |s.jobs| && s.jobs[j].stage == stage }

  function Move(s: State, j: nat, stage: Stage): State
    requires j < |s.jobs|
  {
    s.(jobs := s.jobs[j := s.jobs[j].(stage := stage)])
  }

  function Step(c: Config, s: State, e: Event): State {
    match e
    case SubmitCheck(i) =>
      if i < |s.passed| && !s.passed[i] && s.queue < c.maxQueue then s.(passed := s.passed[i := true]) else s
    case SubmitEnqueue(i) =>
      if i < |s.passed| && s.passed[i]
      then s.(passed := s.passed[i := false], queue := s.queue + 1, accepted := s.accepted + 1) else s
    case TakeTask => if !s.carrying && s.queue > 0 then s.(queue := s.queue - 1, carrying := true) else s
    case DispatchAcquire =>
      if s.carrying && Occupied(s) < c.workers
      then s.(carrying := false, jobs := s.jobs + [Job(true, Holding)]) else s
    case SyncCall => if s.queue < c.maxQueue then s.(jobs := s.jobs + [Job(false, Waiting)]) else s
    case SyncAcquire(j) => if At(s, j, Waiting) && Occupied(s) < c.workers then Move(s, j, Holding) else s
    case SyncTimeout(j) => if At(s, j, Waiting) then Move(s, j, TimedOut) else s
    case Begin(j) =>
      if At(s, j, Holding) then Move(s, j, Active).(activeWorkers := s.activeWorkers + 1) else s
    case Complete(j, ok) =>
      if !At(s, j, Active) then s
      else if ok then Move(s, j, Tallied).(processed := s.processed + 1)
      else Move(s, j, Tallied).(failed := s.failed + 1)
    case Deactivate(j) =>
      if At(s, j, Tallied) then Move(s, j, Leaving).(activeWorkers := s.activeWorkers - 1) else s
    case Release(j) => if At(s, j, Leaving) then Move(s, j, Finished) else s
  }

  function Run(c: Config, s: State, es: seq<Event>): State {
    if es == [] then s else Step(c, Run(c, s, es[..|es| - 1]), es[|es| - 1])
  }

  // ---------------------------------------------------------------- invariant

  function InFlight(passed: seq<bool>): nat {
    if passed == [] then 0 else InFlight(passed[..|passed| - 1]) + if passed[|passed| - 1] then 1 else 0
  }

  ghost predicate Inv(c: Config, s: State, callers: nat) {
    && |s.passed| == callers
    && s.activeWorkers == Total(s.jobs, Busy)
    && Occupied(s) <= c.workers
    && (c.maxQueue >= 1 ==> s.queue + InFlight(s.passed) <= c.maxQueue - 1 + callers)
    && (c.maxQueue == 0 ==> s.queue == 0 && InFlight(s.passed) == 0)
    && s.accepted == s.queue + (if s.carrying then 1 else 0) + Total(s.jobs, Queued)
    && s.processed + s.failed == Total(s.jobs, Counted)
  }

  lemma {:induction false} TotalUpdate(jobs: seq<Job>, j: nat, x: Job, w: Job -> nat)
    requires j < |jobs|
    ensures Total(jobs[j := x], w) == Total(jobs, w) - w(jobs[j]) + w(x)
  {
    var n := |jobs| - 1;
    if j == n {
      assert jobs[j := x][..n] == jobs[..n];
    } else {
      TotalUpdate(jobs[..n], j, x, w);
      assert jobs[j := x][..n] == jobs[..n][j := x];
    }
  }

  lemma TotalSnoc(jobs: seq<Job>, x: Job, w: Job -> nat)
    ensures Total(jobs + [x], w) == Total(jobs, w) + w(x)
  {
    assert (jobs + [x])[..|jobs|] == jobs;
  }

  lemma {:induction false} InFlightUpdate(passed: seq<bool>, i: nat, b: bool)
    requires i < |passed|
    ensures InFlight(passed[i := b]) == InFlight(passed) - (if passed[i] then 1 else 0) + (if b then 1 else 0)
  {
    var n := |passed| - 1;
    if i == n {
      assert passed[i := b][..n] == passed[..n];
    } else {
      InFlightUpdate(passed[..n], i, b);
      assert passed[i := b][..n] == passed[..n][i := b];
    }
  }

  lemma {:induction false} InFlightBound(passed: seq<bool>)
    ensures InFlight(passed) <= |passed|
  {
    if passed != [] { InFlightBound(passed[..|passed| - 1]); }
  }

  /** Active goroutines hold a slot. */
  lemma {:induction false} BusyHoldSlots(jobs: seq<Job>)
    ensures Total(jobs, Busy) <= Total(jobs, Slot)
  {
    if jobs != [] { BusyHoldSlots(jobs[..|jobs| - 1]); }
  }

  lemma MoveTotals(s: State, j: nat, stage: Stage)
    requires j < |s.jobs|
    ensures
      var x := s.jobs[j].(stage := stage);
      var r := Move(s, j, stage).jobs;
      && Total(r, Slot) == Total(s.jobs, Slot) - Slot(s.jobs[j]) + Slot(x)
      && Total(r, Busy) == Total(s.jobs, Busy) - Busy(s.jobs[j]) + Busy(x)
      && Total(r, Queued) == Total(s.jobs, Queued)
      && Total(r, Counted) == Total(s.jobs, Counted) - Counted(s.jobs[j]) + Counted(x)
  {
    var x := s.jobs[j].(stage := stage);
    TotalUpdate(s.jobs, j, x, Slot);
    TotalUpdate(s.jobs, j, x, Busy);
    TotalUpdate(s.jobs, j, x, Queued);
    TotalUpdate(s.jobs, j, x, Counted);
  }

  lemma NewTotals(jobs: seq<Job>, x: Job)
    ensures Total(jobs + [x], Slot) == Total(jobs, Slot) + Slot(x)
    ensures Total(jobs + [x], Busy) == Total(jobs, Busy) + Busy(x)
    ensures Total(jobs + [x], Queued) == Total(jobs, Queued) + Queued(x)
    ensures Total(jobs + [x], Counted) == Total(jobs, Counted) + Counted(x)
  {
    TotalSnoc(jobs, x, Slot);
    TotalSnoc(jobs, x, Busy);
    TotalSnoc(jobs, x, Queued);
    TotalSnoc(jobs, x, Counted);
  }

  /** A goroutine moves one stage on; `da` and `dn` are what the step adds to the counters. */
  lemma MoveKeeps(c: Config, s: State, s': State, callers: nat, j: nat, stage: Stage, da: int, dn: nat)
    requires Inv(c, s, callers) && j < |s.jobs|
    requires s' == s.(jobs := Move(s, j, stage).jobs, activeWorkers := s.activeWorkers + da,
                      processed := s'.processed, failed := s'.failed)
    requires s'.processed + s'.failed == s.processed + s.failed + dn
    requires
      var x := s.jobs[j].(stage := stage);
      && Busy(x) - Busy(s.jobs[j]) == da && Counted(x) - Counted(s.jobs[j]) == dn
      && (Slot(x) <= Slot(s.jobs[j]) || (Slot(x) == Slot(s.jobs[j]) + 1 && Occupied(s) < c.workers))
    ensures Inv(c, s', callers)
  {
    MoveTotals(s, j, stage);
  }

  lemma AcquireKeeps(c: Config, s: State, e: Event, callers: nat)
    requires Inv(c, s, callers) && (e.SyncAcquire? || e.SyncTimeout? || e.Begin?)
    ensures Inv(c, Step(c, s, e), callers)
  {
    var s' := Step(c, s, e);
    match e
    case SyncAcquire(j) =>
      if At(s, j, Waiting) && Occupied(s) < c.workers { MoveKeeps(c, s, s', callers, j, Holding, 0, 0); }
    case SyncTimeout(j) => if At(s, j, Waiting) { MoveKeeps(c, s, s', callers, j, TimedOut, 0, 0); }
    case Begin(j) => if At(s, j, Holding) { MoveKeeps(c, s, s', callers, j, Active, 1, 0); }
  }

  lemma ReleaseKeeps(c: Config, s: State, e: Event, callers: nat)
    requires Inv(c, s, callers) && (e.Complete? || e.Deactivate? || e.Release?)
    ensures Inv(c, Step(c, s, e), callers)
  {
    var s' := Step(c, s, e);
    match e
    case Complete(j, ok) => if At(s, j, Active) { MoveKeeps(c, s, s', callers, j, Tallied, 0, 1); }
    case Deactivate(j) => if At(s, j, Tallied) { MoveKeeps(c, s, s', callers, j, Leaving, -1, 0); }
    case Release(j) => if At(s, j, Leaving) { MoveKeeps(c, s, s', callers, j, Finished, 0, 0); }
  }

  lemma SubmitKeeps(c: Config, s: State, i: nat, callers: nat)
    requires Inv(c, s, callers)
    ensures Inv(c, Step(c, s, SubmitCheck(i)), callers) && Inv(c, Step(c, s, SubmitEnqueue(i)), callers)
  {
    if i < |s.passed| {
      InFlightUpdate(s.passed, i, true);
      InFlightBound(s.passed[i := true]);
      InFlightUpdate(s.passed, i, false);
    }
  }

  lemma NewJobKeeps(c: Config, s: State, callers: nat)
    requires Inv(c, s, callers)
    ensures Inv(c, Step(c, s, DispatchAcquire), callers) && Inv(c, Step(c, s, SyncCall), callers)
  {
    NewJob(c, s, callers, Job(true, Holding), Step(c, s, DispatchAcquire));
    NewJob(c, s, callers, Job(false, Waiting), Step(c, s, SyncCall));
  }

  lemma NewJob(c: Config, s: State, callers: nat, x: Job, s': State)
    requires Inv(c, s, callers) && Busy(x) == 0 && Counted(x) == 0
    requires s' == s || (s' == s.(jobs := s.jobs + [x], carrying := s'.carrying) && Occupied(s) + Slot(x) <= c.workers
                         && (if s.carrying then 1 else 0) == (if s'.carrying then 1 else 0) + Queued(x))
    ensures Inv(c, s', callers)
  {
    NewTotals(s.jobs, x);
  }

  lemma StepKeeps(c: Config, s: State, e: Event, callers: nat)
    requires Inv(c, s, callers)
    ensures Inv(c, Step(c, s, e), callers)
  {
    match e
    case SubmitCheck(i) => SubmitKeeps(c, s, i, callers);
    case SubmitEnqueue(i) => SubmitKeeps(c, s, i, callers);
    case TakeTask =>
    case DispatchAcquire => NewJobKeeps(c, s, callers);
    case SyncCall => NewJobKeeps(c, s, callers);
    case SyncAcquire(_) => AcquireKeeps(c, s, e, callers);
    case SyncTimeout(_) => AcquireKeeps(c, s, e, callers);
    case Begin(_) => AcquireKeeps(c, s, e, callers);
    case Complete(_, _) => ReleaseKeeps(c, s, e, callers);
    case Deactivate(_) => ReleaseKeeps(c, s, e, callers);
    case Release(_) => ReleaseKeeps(c, s, e, callers);
  }

  lemma {:induction false} RunKeeps(c: Config, callers: nat, es: seq<Event>)
    ensures Inv(c, Run(c, Initial(callers), es), callers)
  {
    if es == [] {
      NobodyInFlight(callers);
    } else {
      RunKeeps(c, callers, es[..|es| - 1]);
      StepKeeps(c, Run(c, Initial(callers), es[..|es| - 1]), es[|es| - 1], callers);
    }
  }

  lemma {:induction false} NobodyInFlight(n: nat)
    ensures InFlight(seq(n, _ => false)) == 0
  {
    if n > 0 {
      assert seq(n, _ => false)[..n - 1] == seq(n - 1, _ => false);
      NobodyInFlight(n - 1);
    }
  }

  /** In every interleaving: ActiveWorkers within the occupied slots, within Workers; the queue within its overshoot. */
  lemma PoolBounds(c: Config, callers: nat, es: seq<Event>)
    ensures
      var s := Run(c, Initial(callers), es);
      && 0 <= s.activeWorkers <= Occupied(s) <= c.workers
      && (c.maxQueue >= 1 ==> s.queue <= c.maxQueue - 1 + callers)
      && (c.maxQueue == 0 ==> s.queue == 0)
      && s.accepted == s.queue + (if s.carrying then 1 else 0) + Total(s.jobs, Queued)
      && s.processed + s.failed == Total(s.jobs, Counted)
  {
    RunKeeps(c, callers, es);
    BusyHoldSlots(Run(c, Initial(callers), es).jobs);
  }

  // ---------------------------------------------------------------- what the counters mean

  /** How many tasks completed with the given outcome. */
  function Completions(c: Config, s: State, es: seq<Event>, ok: bool): nat {
    if es == [] then 0
    else
      var n := |es| - 1;
      Completions(c, s, es[..n], ok)
      + if es[n].Complete? && es[n].ok == ok && At(Run(c, s, es[..n]), es[n].j, Active) then 1 else 0
  }

  lemma StepCounts(c: Config, s: State, e: Event)
    ensures
      var s' := Step(c, s, e);
      && s'.processed == s.processed + (if e.Complete? && e.ok && At(s, e.j, Active) then 1 else 0)
      && s'.failed == s.failed + (if e.Complete? && !e.ok && At(s, e.j, Active) then 1 else 0)
      && s'.accepted == s.accepted + (if e.SubmitEnqueue? && e.i < |s.passed| && s.passed[e.i] then 1 else 0)
  {
  }

  /** Processed counts the tasks whose handler succeeded, Failed the others. */
  lemma {:induction false} CountersMean(c: Config, callers: nat, es: seq<Event>)
    ensures
      var s := Run(c, Initial(callers), es);
      && s.processed == Completions(c, Initial(callers), es, true)
      && s.failed == Completions(c, Initial(callers), es, false)
  {
    if es != [] {
      CountersMean(c, callers, es[..|es| - 1]);
      StepCounts(c, Run(c, Initial(callers), es[..|es| - 1]), es[|es| - 1]);
    }
  }

  /** Who gets in: Submit and SubmitSync check the queue's length, and a slot is taken only while one is free. */
  lemma AdmitsExactly(c: Config, s: State, i: nat, j: nat)
    ensures i < |s.passed| && !s.passed[i] ==>
              Step(c, s, SubmitCheck(i)) == if s.queue < c.maxQueue then s.(passed := s.passed[i := true]) else s
    ensures |Step(c, s, SyncCall).jobs| == |s.jobs| + if s.queue < c.maxQueue then 1 else 0
    ensures s.carrying ==> (Step(c, s, DispatchAcquire).carrying <==> Occupied(s) >= c.workers)
    ensures At(s, j, Waiting) ==> (At(Step(c, s, SyncAcquire(j)), j, Holding) <==> Occupied(s) < c.workers)
  {
  }

  /** Every stage of a task leads to the next: taken off the queue, given a slot, run, counted, and let go. */
  lemma StagesAdvance(c: Config, s: State, j: nat, ok: bool)
    ensures !s.carrying && s.queue > 0 ==> Step(c, s, TakeTask) == s.(queue := s.queue - 1, carrying := true)
    ensures s.carrying && Occupied(s) < c.workers ==>
              Step(c, s, DispatchAcquire) == s.(carrying := false, jobs := s.jobs + [Job(true, Holding)])
    ensures s.queue < c.maxQueue ==> Step(c, s, SyncCall) == s.(jobs := s.jobs + [Job(false, Waiting)])
    ensures At(s, j, Waiting) ==> At(Step(c, s, SyncTimeout(j)), j, TimedOut)
    ensures At(s, j, Holding) ==> At(Step(c, s, Begin(j)), j, Active)
    ensures At(s, j, Active) ==> At(Step(c, s, Complete(j, ok)), j, Tallied)
    ensures At(s, j, Tallied) ==> At(Step(c, s, Deactivate(j)), j, Leaving)
    ensures At(s, j, Leaving) ==> At(Step(c, s, Release(j)), j, Finished)
  {
  }

  // ---------------------------------------------------------------- the overshoot is reached

  lemma RunTwoMore(c: Config, s: State, es: seq<Event>, a: Event, b: Event)
    ensures Run(c, s, es + [a, b]) == Step(c, Step(c, Run(c, s, es), a), b)
  {
    assert (es + [a, b])[..|es| + 1] == es + [a];
    assert (es + [a])[..|es|] == es;
  }

  lemma RunOneMore(c: Config, s: State, es: seq<Event>, a: Event)
    ensures Run(c, s, es + [a]) == Step(c, Run(c, s, es), a)
  {
    assert (es + [a])[..|es|] == es;
  }

  /** One caller fills the queue. */
  function Fill(n: nat): seq<Event> {
    if n == 0 then [] else Fill(n - 1) + [SubmitCheck(0), SubmitEnqueue(0)]
  }

  lemma {:induction false} FillRuns(c: Config, callers: nat, n: nat)
    requires callers >= 1 && n <= c.maxQueue
    ensures Run(c, Initial(callers), Fill(n)) == Initial(callers).(queue := n, accepted := n)
  {
    if n > 0 {
      FillRuns(c, callers, n - 1);
      RunTwoMore(c, Initial(callers), Fill(n - 1), SubmitCheck(0), SubmitEnqueue(0));
      var p := Initial(callers).passed;
      assert p[0 := true][0 := false] == p;
    }
  }

  /** Callers 0..n-1 pass the check, one after the other. */
  function Checks(n: nat): seq<Event> { if n == 0 then [] else Checks(n - 1) + [SubmitCheck(n - 1)] }

  function Enqueues(n: nat): seq<Event> { if n == 0 then [] else Enqueues(n - 1) + [SubmitEnqueue(n - 1)] }

  /** The first `n` callers are between check and enqueue. */
  function UpTo(callers: nat, n: nat): seq<bool> { seq(callers, i => i < n) }

  lemma OneMoreChecks(c: Config, t: State, callers: nat, n: nat)
    requires 0 < n <= callers && t.passed == UpTo(callers, n - 1) && t.queue < c.maxQueue
    ensures Step(c, t, SubmitCheck(n - 1)) == t.(passed := UpTo(callers, n))
  {
    assert UpTo(callers, n - 1)[n - 1 := true] == UpTo(callers, n);
  }

  lemma {:induction false} ChecksRun(c: Config, s: State, es: seq<Event>, callers: nat, n: nat, t: State)
    requires t == Run(c, s, es) && t.queue < c.maxQueue && t.passed == UpTo(callers, 0) && n <= callers
    ensures Run(c, s, es + Checks(n)) == t.(passed := UpTo(callers, n))
  {
    if n == 0 {
      assert es + [] == es;
    } else {
      ChecksRun(c, s, es, callers, n - 1, t);
      assert es + Checks(n) == es + Checks(n - 1) + [SubmitCheck(n - 1)];
      RunOneMore(c, s, es + Checks(n - 1), SubmitCheck(n - 1));
      OneMoreChecks(c, t.(passed := UpTo(callers, n - 1)), callers, n);
    }
  }

  /** The callers from `n` on are between check and enqueue. */
  function From(callers: nat, n: nat): seq<bool> { seq(callers, i => i >= n) }

  lemma {:induction false} EnqueuesRun(c: Config, s: State, es: seq<Event>, callers: nat, n: nat, t: State)
    requires t == Run(c, s, es) && t.passed == From(callers, 0) && n <= callers
    ensures Run(c, s, es + Enqueues(n))
            == t.(passed := From(callers, n), queue := t.queue + n, accepted := t.accepted + n)
  {
    if n == 0 {
      assert es + [] == es;
    } else {
      EnqueuesRun(c, s, es, callers, n - 1, t);
      assert es + Enqueues(n) == es + Enqueues(n - 1) + [SubmitEnqueue(n - 1)];
      RunOneMore(c, s, es + Enqueues(n - 1), SubmitEnqueue(n - 1));
      assert From(callers, n - 1)[n - 1 := false] == From(callers, n);
    }
  }

  /** For every limit and number of callers some interleaving reaches the bound of PoolBounds exactly. */
  lemma OvershootReached(c: Config, callers: nat)
    requires c.maxQueue >= 1 && callers >= 1
    ensures exists es :: Run(c, Initial(callers), es).queue == c.maxQueue - 1 + callers
  {
    var s0 := Initial(callers);
    var es := Fill(c.maxQueue - 1);
    FillRuns(c, callers, c.maxQueue - 1);
    var t := Run(c, s0, es);
    assert t.passed == UpTo(callers, 0);
    ChecksRun(c, s0, es, callers, callers, t);
    var t' := Run(c, s0, es + Checks(callers));
    assert t'.passed == From(callers, 0);
    EnqueuesRun(c, s0, es + Checks(callers), callers, callers, t');
    assert Run(c, s0, es + Checks(callers) + Enqueues(callers)).queue == c.maxQueue - 1 + callers;
  }
}
