/** Whole-run theorems about the scheduler. */
module SchedulerRuns {
  import opened Tasks
  import opened Queues
  import opened WorkerPool
  import opened SchedulerSpec
  import opened SchedulerInv

  // ---------------------------------------------------------------- which events are harmless

  /** Worker `i` would be given new work while its own failure is still being handled. */
  predicate Reassigned(c: Config, s: State, i: nat, failing: set<nat>)
    requires i < |s.pool.busy|
  {
    var p := DispatchRange(Release(s.pool, i), 0, i, c.limits, failing).pool;
    c.useWorkers && i !in failing && FirstRoom(p.queue, p.active, c.limits) < |p.queue|
  }

  /**
   * Everything is, except an `initialized` message for a worker that already holds a task,
   * and a failure of a worker that gets new work before it is replaced.
   */
  predicate Harmless(c: Config, s: State, e: Event) {
    match e
    case ReadyMessage(i) => i !in s.pool.jobs
    case Failure(i, failing) =>
      i < |s.pool.busy| && i in s.pool.jobs ==> !Reassigned(c, s, i, failing)
    case _ => true
  }

  // ---------------------------------------------------------------- who gets work in a pass

  lemma OfferElsewhere(p: Pool, i: nat, j: nat, limits: PerType, failing: set<nat>)
    requires PoolInv(p, limits) && i < |p.busy| && j != i
    ensures j in Offer(p, i, limits, failing).pool.jobs <==> j in p.jobs
  {
    if p.busy[i] || FirstRoom(p.queue, p.active, limits) == |p.queue| {
      OfferNothing(p, i, limits, failing);
    } else {
      OfferPicked(p, i, limits, failing);
    }
  }

  /** A worker whose turn is not among `a` to `b - 1` keeps what it holds. */
  lemma RangeElsewhere(p: Pool, a: nat, b: nat, j: nat, limits: PerType, failing: set<nat>)
    requires PoolInv(p, limits) && a <= b <= |p.busy| && !(a <= j < b)
    ensures j in DispatchRange(p, a, b, limits, failing).pool.jobs <==> j in p.jobs
  {
    var I := (i: nat, q: Pool, _: seq<Task>) => PoolInv(q, limits) && a <= i && (j in q.jobs <==> j in p.jobs);
    forall i: nat, q: Pool, x: seq<Task> | I(i, q, x) && i < b && i < |q.busy|
      ensures
        var o := Offer(q, i, limits, failing);
        I(i + 1, o.pool, x + o.failed)
    {
      OfferKeeps(q, i, limits, failing);
      OfferElsewhere(q, i, j, limits, failing);
    }
    LoopRule(p, a, b, limits, failing, I, []);
  }

  lemma {:induction false} RangeSplit(p: Pool, a: nat, m: nat, b: nat, limits: PerType, failing: set<nat>, q: Pool)
    requires a <= m <= b <= |p.busy| && q == DispatchRange(p, a, m, limits, failing).pool
    ensures DispatchRange(p, a, b, limits, failing).pool == DispatchRange(q, m, b, limits, failing).pool
    decreases m - a
  {
    if a < m {
      var o := Offer(p, a, limits, failing).pool;
      NextTurn(p, a, m, limits, failing, o);
      NextTurn(p, a, b, limits, failing, o);
      RangeSplit(o, a + 1, m, b, limits, failing, q);
    }
  }

  lemma NextTurn(p: Pool, a: nat, b: nat, limits: PerType, failing: set<nat>, o: Pool)
    requires a < b <= |p.busy| && o == Offer(p, a, limits, failing).pool
    ensures DispatchRange(p, a, b, limits, failing).pool == DispatchRange(o, a + 1, b, limits, failing).pool
  {
  }

  lemma {:induction false} EmptyQueueRange(p: Pool, a: nat, b: nat, limits: PerType, failing: set<nat>)
    requires PoolInv(p, limits) && p.queue == [] && a <= b <= |p.busy|
    ensures DispatchRange(p, a, b, limits, failing) == Sent(p, [])
    decreases b - a
  {
    if a < b {
      OfferNothing(p, a, limits, failing);
      EmptyQueueRange(p, a + 1, b, limits, failing);
    }
  }

  /** An idle worker gets a task in a pass exactly if one is left that may run when its turn comes. */
  lemma WhoGetsWork(p: Pool, i: nat, limits: PerType, failing: set<nat>)
    requires PoolInv(p, limits) && i < |p.busy| && i !in p.jobs
    ensures
      var q := DispatchRange(p, 0, i, limits, failing).pool;
      i in Dispatch(p, limits, failing).pool.jobs
      <==> i !in failing && FirstRoom(q.queue, q.active, limits) < |q.queue|
  {
    var n := |p.busy|;
    var q := DispatchRange(p, 0, i, limits, failing).pool;
    DispatchKeeps(p, 0, i, limits, failing);
    RangeElsewhere(p, 0, i, i, limits, failing);
    RangeSplit(p, 0, i, n, limits, failing, q);
    var o := Offer(q, i, limits, failing).pool;
    OfferKeeps(q, i, limits, failing);
    RangeElsewhere(o, i + 1, n, i, limits, failing);
    if FirstRoom(q.queue, q.active, limits) == |q.queue| {
      OfferNothing(q, i, limits, failing);
    } else {
      OfferPicked(q, i, limits, failing);
    }
  }

  // ---------------------------------------------------------------- one step

  lemma FlagCleared(c: Config, s: State, i: nat)
    requires Inv(c, s)
    ensures Inv(c, WorkerReady(s, i)) <==> i !in s.pool.jobs
    ensures i !in s.pool.jobs ==> WorkerReady(s, i) == s
  {
    if i < |s.pool.busy| {
      if i in s.pool.jobs {
        assert !Coupled(WorkerReady(s, i).pool);
      } else {
        assert s.pool.busy[i := false] == s.pool.busy;
      }
    }
  }

  lemma ResultAssigns(c: Config, s: State, i: nat, ok: bool, failing: set<nat>)
    requires Inv(c, s) && i < |s.pool.busy| && i in s.pool.jobs
    ensures i in WorkerResult(c, s, i, ok, failing).pool.jobs <==> Reassigned(c, s, i, failing)
  {
    var p := Release(s.pool, i);
    assert PoolInv(p, c.limits) by { ReleaseKeeps(s.pool, i, c.limits); }
    assert Settle(s, i, ok).pool == p;
    WhoGetsWork(p, i, c.limits, failing);
    if p.queue == [] { EmptyQueueRange(p, 0, i, c.limits, failing); }
  }

  /** From a good state an event leads to a good state exactly if it is harmless. */
  lemma StepKeepsExactly(c: Config, s: State, e: Event)
    requires Inv(c, s)
    ensures Inv(c, Step(c, s, e)) <==> Harmless(c, s, e)
  {
    match e
    case ResultMessage(i, ok, failing) => WorkerResultKeeps(c, s, i, ok, failing);
    case ReadyMessage(i) => FlagCleared(c, s, i);
    case Failure(i, failing) => FailureKeepsExactly(c, s, i, failing);
    case _ => QueueStepKeeps(c, s, e);
  }

  /** Events that no worker sends are harmless in every good state. */
  lemma QueueStepKeeps(c: Config, s: State, e: Event)
    requires Inv(c, s) && !e.ResultMessage? && !e.ReadyMessage? && !e.Failure?
    ensures Inv(c, Step(c, s, e))
  {
    match e
    case EnqueueCall(o, now) => EnqueueKeeps(c, s, o, now);
    case ProcessTick(failing) => TickKeeps(c, s, failing);
    case BatchTick(category, now) => StartBatchKeeps(c, s, category, now);
    case AgingTick(now) => StartFiringKeeps(c, s, Keys(s.room.batches), Aged, now);
    case TimerFired(t) => QueueTimeoutKeeps(c, s, t);
    case MemoryTick(usage, gc, now) => MemoryCheckKeeps(c, s, usage, gc, now);
    case _ => SmallStepKeeps(c, s, e);
  }

  lemma SmallStepKeeps(c: Config, s: State, e: Event)
    requires Inv(c, s)
    requires e.IntervalTick? || e.InlineSettled? || e.InlineReleased? || e.GroupSettled? || e.GroupFinished?
    ensures Inv(c, Step(c, s, e))
  {
    match e
    case IntervalTick => IntervalKeeps(c, s);
    case InlineSettled(i, ok) => InlineSettledKeeps(c, s, i, ok);
    case InlineReleased(i) => InlineReleasedKeeps(c, s, i);
    case GroupSettled(g, i, ok) => GroupSettledKeeps(c, s, g, i, ok);
    case GroupFinished(g) => GroupFinishedKeeps(c, s, g);
  }

  lemma IntervalKeeps(c: Config, s: State)
    requires Inv(c, s)
    ensures Inv(c, Step(c, s, IntervalTick))
  {
    WakeKeeps(c, s);
  }

  lemma InlineSettledKeeps(c: Config, s: State, i: nat, ok: bool)
    requires Inv(c, s)
    ensures Inv(c, Step(c, s, InlineSettled(i, ok)))
  {
    InlineSettleKeeps(c, s, i, ok);
  }

  lemma InlineReleasedKeeps(c: Config, s: State, i: nat)
    requires Inv(c, s)
    ensures Inv(c, Step(c, s, InlineReleased(i)))
  {
    InlineReleaseKeeps(c, s, i);
  }

  lemma GroupSettledKeeps(c: Config, s: State, g: nat, i: nat, ok: bool)
    requires Inv(c, s)
    ensures Inv(c, Step(c, s, GroupSettled(g, i, ok)))
  {
    GroupSettleKeeps(c, s, g, i, ok);
  }

  lemma GroupFinishedKeeps(c: Config, s: State, g: nat)
    requires Inv(c, s)
    ensures Inv(c, Step(c, s, GroupFinished(g)))
  {
    assert Step(c, s, GroupFinished(g)) == GroupFinish(s, g);
    GroupFinishKeeps(c, s, g);
  }

  lemma UnsignalledCore(c: Config, s: State)
    requires Inv(c, s)
    ensures Core(c, s.(pending := false))
  {
    var s' := s.(pending := false);
    forall t ensures PlacedTimes(s', t) == PlacedTimes(s, t) {}
  }

  lemma TickKeeps(c: Config, s: State, failing: set<nat>)
    requires Inv(c, s)
    ensures Inv(c, ProcessQueue(c, s.(pending := false), failing))
  {
    UnsignalledCore(c, s);
    ProcessQueueKeeps(c, s.(pending := false), failing);
  }

  lemma FailureKeepsExactly(c: Config, s: State, i: nat, failing: set<nat>)
    requires Inv(c, s)
    ensures Inv(c, WorkerFailure(c, s, i, failing)) <==> Harmless(c, s, Failure(i, failing))
  {
    if i < |s.pool.busy| {
      if i in s.pool.jobs {
        WorkerResultKeeps(c, s, i, false, failing);
        ResultAssigns(c, s, i, false, failing);
        FlagCleared(c, WorkerResult(c, s, i, false, failing), i);
      } else {
        FlagCleared(c, s, i);
      }
    }
  }

  lemma WakeKeeps(c: Config, s: State)
    requires Inv(c, s)
    ensures Inv(c, Wake(s))
  {
    forall t ensures PlacedTimes(Wake(s), t) == PlacedTimes(s, t) {}
  }

  // ---------------------------------------------------------------- runs

  ghost predicate HarmlessRun(c: Config, es: seq<Event>) {
    forall k :: 0 <= k < |es| ==> Harmless(c, Run(c, Initial(c), es[..k]), es[k])
  }

  lemma HarmlessPrefix(c: Config, es: seq<Event>, init: seq<Event>)
    requires HarmlessRun(c, es) && es != [] && init == es[..|es| - 1]
    ensures HarmlessRun(c, init)
  {
    forall k | 0 <= k < |init| ensures Harmless(c, Run(c, Initial(c), init[..k]), init[k]) {
      assert init[..k] == es[..k] && init[k] == es[k];
    }
  }

  /** Every state of every harmless run is good. */
  lemma {:induction false} RunKeeps(c: Config, es: seq<Event>)
    requires ValidConfig(c) && HarmlessRun(c, es)
    ensures Inv(c, Run(c, Initial(c), es))
  {
    if es == [] {
      InitialInv(c);
    } else {
      var n := |es| - 1;
      var init := es[..n];
      HarmlessPrefix(c, es, init);
      RunKeeps(c, init);
      StepKeepsExactly(c, Run(c, Initial(c), init), es[n]);
    }
  }

  // ---------------------------------------------------------------- what a good state promises

  /** An accepted task is in exactly one place, or settled exactly once; nothing else is anywhere. */
  lemma ExactlyOnePlace(c: Config, s: State, t: Task)
    requires Inv(c, s)
    ensures PlacedTimes(s, t) + SettledTimes(s.log, t) == if t in s.log.accepted then 1 else 0
  {
    IncreasingOnce(s.log.accepted, t);
    TimesPositive(s.log.accepted, t);
    assert PlacedTimes(s, t) + SettledTimes(s.log, t) == Times(s.log.accepted, t);
  }

  /** The promises of a good state, for every state of every harmless run. */
  lemma RunPromises(c: Config, es: seq<Event>, t: Task)
    requires ValidConfig(c) && HarmlessRun(c, es)
    ensures
      var s := Run(c, Initial(c), es);
      && PlacedTimes(s, t) + SettledTimes(s.log, t) == (if t in s.log.accepted then 1 else 0)
      && s.active == |s.inline| + |s.unreleased| + GroupSlots(s.groups) + |s.pool.queue| + |s.pool.jobs|
      && 0 <= s.active <= c.maxConcurrent
      && (Total(s.room) > 0 && s.active < c.maxConcurrent ==> s.pending)
      && |s.pool.busy| == c.workers
      && (forall i :: 0 <= i < c.workers ==> (s.pool.busy[i] <==> i in s.pool.jobs))
      && (forall k :: k != Unknown ==>
            s.pool.active.At(k) == CountAssigned(s.pool.jobs, c.workers, k) <= c.limits.At(k) <= c.workers)
      && s.pool.dropped == 0
  {
    RunKeeps(c, es);
    ExactlyOnePlace(c, Run(c, Initial(c), es), t);
  }

  lemma EndPassFrame(c: Config, s: State, toWorkers: bool, failing: set<nat>)
    requires Core(c, s)
    ensures
      var s' := EndPass(c, s, toWorkers, failing);
      s'.room == s.room && s'.inline == s.inline && s'.pool.added == s.pool.added
  {
    DispatchKeeps(s.pool, 0, |s.pool.busy|, c.limits, failing);
  }

  /** What a pass that takes `k` tasks has done by its end. */
  ghost predicate TookPrefix(c: Config, s: State, k: nat, s': State)
    requires k <= |Offered(s.room, s.pressure)|
  {
    var line := Offered(s.room, s.pressure);
    && Offered(s'.room, s.pressure) == line[k..]
    && s'.inline == s.inline + ForInline(c, line[..k])
    && s'.pool.added == s.pool.added + ForWorkers(c, line[..k])
    && s'.room.batches == s.room.batches
    && (s.pressure ==> s'.room.low == s.room.low)
  }

  lemma TakeTookPrefix(c: Config, s: State, k: nat)
    requires k <= |Offered(s.room, s.pressure)|
    ensures TookPrefix(c, s, k, Take(c, s, k))
  {
    ShiftedRest(s.room, s.pressure, k);
  }

  lemma TookPrefixStays(c: Config, s: State, k: nat, t: State, s': State)
    requires k <= |Offered(s.room, s.pressure)| && TookPrefix(c, s, k, t)
    requires s'.room == t.room && s'.inline == t.inline && s'.pool.added == t.pool.added
    ensures TookPrefix(c, s, k, s')
  {
  }

  lemma NoneTaken(c: Config, s: State)
    ensures TookPrefix(c, s, 0, s)
  {
    var line := Offered(s.room, s.pressure);
    assert line[..0] == [] && line[0..] == line;
    assert ForInline(c, []) == [] && ForWorkers(c, []) == [];
  }

  lemma PassTookSome(c: Config, s: State, failing: set<nat>, k: nat, t: State)
    requires Core(c, s) && s.active < c.maxConcurrent && k == PassSize(c, s) && t == Take(c, s, k)
    ensures TookPrefix(c, s, k, ProcessQueue(c, s, failing))
  {
    assert TookPrefix(c, s, k, t) by { TakeTookPrefix(c, s, k); }
    assert Core(c, t) by { TakeKeeps(c, s, k); }
    var toWorkers := ForWorkers(c, Offered(s.room, s.pressure)[..k]) != [];
    EndPassFrame(c, t, toWorkers, failing);
    TookPrefixStays(c, s, k, t, EndPass(c, t, toWorkers, failing));
  }

  /** A pass takes `k` tasks from the front of the line, in order, and touches nothing else that waits. */
  lemma PassTakesPrefix(c: Config, s: State, failing: set<nat>, k: int)
    requires Core(c, s)
    requires k == Min(Min(c.concurrentTasks, c.maxConcurrent - s.active), |Offered(s.room, s.pressure)|)
    ensures 0 <= k && TookPrefix(c, s, k, ProcessQueue(c, s, failing))
  {
    if s.active < c.maxConcurrent {
      assert k == PassSize(c, s);
      PassTookSome(c, s, failing, k, Take(c, s, k));
    } else {
      FullPass(c, s, failing);
    }
  }

  lemma FullPass(c: Config, s: State, failing: set<nat>)
    requires s.active >= c.maxConcurrent
    ensures TookPrefix(c, s, 0, ProcessQueue(c, s, failing))
  {
    NoneTaken(c, s);
  }

  /** The log after a dispatch: only its own failures are added. */
  lemma SendWorkLog(c: Config, s: State, failing: set<nat>)
    requires PoolInv(s.pool, c.limits) && (c.useWorkers || s.pool.queue == [])
    ensures SendWork(c, s, failing).log
            == s.log.(rejected := s.log.rejected + Dispatch(s.pool, c.limits, failing).failed)
  {
    if s.pool.queue == [] { EmptyQueueRange(s.pool, 0, |s.pool.busy|, c.limits, failing); }
    assert s.log.rejected + [] == s.log.rejected;
  }

  lemma AssignedUnsettled(c: Config, s: State, i: nat)
    requires Inv(c, s) && i in s.pool.jobs
    ensures SettledTimes(s.log, s.pool.jobs[i].task) == 0
  {
    var t := s.pool.jobs[i].task;
    assert PoolTimes(s.pool, t) >= 1 by { ReleaseTimes(s.pool, i, t); }
    ExactlyOnePlace(c, s, t);
  }

  lemma SettleLog(s: State, i: nat, ok: bool)
    requires i < |s.pool.busy| && i in s.pool.jobs
    ensures
      var t := s.pool.jobs[i].task;
      Settle(s, i, ok).log == s.log.(resolved := s.log.resolved + (if ok then [t] else []),
                                     rejected := s.log.rejected + (if ok then [] else [t]))
  {
    assert s.log.resolved + [] == s.log.resolved && s.log.rejected + [] == s.log.rejected;
  }

  /** The log after a result: the task of worker `i`, then what the follow-up dispatch could not send. */
  lemma ResultLog(c: Config, s: State, i: nat, ok: bool, failing: set<nat>)
    requires Inv(c, s) && i in s.pool.jobs
    ensures
      var t := s.pool.jobs[i].task;
      var failed := Dispatch(Release(s.pool, i), c.limits, failing).failed;
      WorkerResult(c, s, i, ok, failing).log
      == s.log.(resolved := s.log.resolved + (if ok then [t] else []),
                rejected := s.log.rejected + (if ok then [] else [t]) + failed)
  {
    var s1 := Settle(s, i, ok);
    assert PoolInv(s1.pool, c.limits) by { ReleaseKeeps(s.pool, i, c.limits); }
    SettleLog(s, i, ok);
    SendWorkLog(c, s1, failing);
  }

  lemma ListedTimes(l: Log, t: Task, ok: bool, failed: seq<Task>, l': Log)
    requires l' == l.(resolved := l.resolved + (if ok then [t] else []),
                      rejected := l.rejected + (if ok then [] else [t]) + failed)
    ensures SettledTimes(l', t) == SettledTimes(l, t) + 1 + Times(failed, t)
  {
    var a, b := if ok then [t] else [], if ok then [] else [t];
    TimesOne(t, t);
    TimesAppend(l.resolved, a, t);
    TimesAppend(l.rejected + b, failed, t);
    TimesAppend(l.rejected, b, t);
  }

  /**
   * A result settles the task that was sent to this worker, for the first time; the only other
   * settlements are the rejections of what the follow-up dispatch could not send, and that task is not among them.
   */
  lemma ResultSettles(c: Config, s: State, i: nat, ok: bool, failing: set<nat>)
    requires Inv(c, s) && i in s.pool.jobs
    ensures
      var t := s.pool.jobs[i].task;
      var s' := WorkerResult(c, s, i, ok, failing);
      var failed := Dispatch(Release(s.pool, i), c.limits, failing).failed;
      && s'.log.resolved == s.log.resolved + (if ok then [t] else [])
      && s'.log.rejected == s.log.rejected + (if ok then [] else [t]) + failed
      && s'.log.timedOut == s.log.timedOut
      && (failing == {} ==> failed == [])
      && t !in failed
      && SettledTimes(s.log, t) == 0 && SettledTimes(s'.log, t) == 1
  {
    var s' := WorkerResult(c, s, i, ok, failing);
    var failed := Dispatch(Release(s.pool, i), c.limits, failing).failed;
    ResultLog(c, s, i, ok, failing);
    ResultOnce(c, s, i, ok, failing, s.pool.jobs[i].task, s', failed);
    if failing == {} { CleanDispatch(c, s, i); }
  }

  lemma CleanDispatch(c: Config, s: State, i: nat)
    requires Inv(c, s) && i < |s.pool.busy|
    ensures Dispatch(Release(s.pool, i), c.limits, {}).failed == []
  {
    var p := Release(s.pool, i);
    assert PoolInv(p, c.limits) by { ReleaseKeeps(s.pool, i, c.limits); }
    DispatchKeeps(p, 0, |p.busy|, c.limits, {});
  }

  lemma ResultOnce(c: Config, s: State, i: nat, ok: bool, failing: set<nat>, t: Task, s': State, failed: seq<Task>)
    requires Inv(c, s) && i in s.pool.jobs && t == s.pool.jobs[i].task && s' == WorkerResult(c, s, i, ok, failing)
    requires s'.log == s.log.(resolved := s.log.resolved + (if ok then [t] else []),
                              rejected := s.log.rejected + (if ok then [] else [t]) + failed)
    ensures t !in failed && SettledTimes(s.log, t) == 0 && SettledTimes(s'.log, t) == 1
  {
    assert SettledTimes(s.log, t) == 0 by { AssignedUnsettled(c, s, i); }
    assert SettledTimes(s'.log, t) == 1 + Times(failed, t) by { ListedTimes(s.log, t, ok, failed, s'.log); }
    assert SettledTimes(s'.log, t) <= 1 by {
      WorkerResultKeeps(c, s, i, ok, failing);
      ExactlyOnePlace(c, s', t);
    }
    TimesPositive(failed, t);
  }

  /** Queue and in-flight bounds, and the statistics as a balance. */
  lemma Bounds(c: Config, s: State)
    requires Inv(c, s)
    ensures 0 <= s.active <= c.maxConcurrent
    ensures Total(s.room) <= c.overflowThreshold
    ensures |s.log.accepted| - |s.log.resolved| - |s.log.rejected| - |s.log.timedOut|
            <= c.overflowThreshold + c.maxConcurrent
    ensures (s.stats.processed + s.stats.rejected + s.stats.timeout)
            - (c.restored.processed + c.restored.rejected + c.restored.timeout)
            == s.refused + (|s.log.resolved| + |s.log.rejected| + |s.log.timedOut|)
               - (OpenProcessed(s.groups) + OpenFailed(s.groups))
  {
  }

  lemma {:induction false} GroupWithin(gs: seq<Group>, g: nat)
    requires g < |gs|
    ensures gs[g].count <= GroupSlots(gs)
  {
    if g > 0 { GroupWithin(gs[1..], g - 1); }
  }

  /** No lower clamp ever changes a value, in the middle of a pass neither: every decrement has enough to take from. */
  lemma ClampsIdle(c: Config, s: State, failing: set<nat>)
    requires Core(c, s)
    ensures s.unreleased != [] ==> s.active >= 1
    ensures forall g :: 0 <= g < |s.groups| ==> s.active >= s.groups[g].count
    ensures forall i :: i in s.pool.jobs ==> s.active >= 1 && s.pool.active.At(TypeOf(s.pool.jobs[i])) >= 1
    ensures s.active >= |Dispatch(s.pool, c.limits, failing).failed|
    ensures forall j, k :: 0 <= j < |s.room.batches| && 0 <= k <= |s.room.batches[j].batch.tasks| ==>
              s.room.batches[j].batch.totalSize >= SumSizes(s.room.batches[j].batch.tasks[..k])
  {
    forall g | 0 <= g < |s.groups| ensures s.active >= s.groups[g].count { GroupWithin(s.groups, g); }
    forall i | i in s.pool.jobs
      ensures s.active >= 1 && s.pool.active.At(TypeOf(s.pool.jobs[i])) >= 1
    {
      JobCounts(c, s.pool, i);
    }
    DispatchKeeps(s.pool, 0, |s.pool.busy|, c.limits, failing);
    forall j, k | 0 <= j < |s.room.batches| && 0 <= k <= |s.room.batches[j].batch.tasks|
      ensures s.room.batches[j].batch.totalSize >= SumSizes(s.room.batches[j].batch.tasks[..k])
    {
      assert BatchOk(s.room.batches[j], s.lastId);
      PrefixSum(s.room.batches[j].batch.tasks, k);
    }
  }

  lemma JobCounts(c: Config, p: Pool, i: nat)
    requires PoolInv(p, c.limits) && i in p.jobs
    ensures Held(p) >= 1 && p.active.At(TypeOf(p.jobs[i])) >= 1
  {
    assert Typed(p.jobs[i]);
    CountAtLeast(p.jobs, |p.busy|, i);
    ReleaseKeeps(p, i, c.limits);
  }

  lemma PrefixSum(ts: seq<Task>, k: nat)
    requires k <= |ts|
    ensures SumSizes(ts[..k]) <= SumSizes(ts)
  {
    assert ts == ts[..k] + ts[k..];
    SumSizesAppend(ts[..k], ts[k..]);
  }

  // ---------------------------------------------------------------- work conservation

  predicate SendsSucceed(e: Event) {
    match e
    case ProcessTick(failing) => failing == {}
    case ResultMessage(_, _, failing) => failing == {}
    case Failure(_, failing) => failing == {}
    case _ => true
  }

  ghost predicate Conserving(c: Config, s: State) {
    Saturated(s.pool, |s.pool.busy|, c.limits)
  }

  lemma SendWorkConserving(c: Config, s: State)
    requires Core(c, s)
    ensures Conserving(c, SendWork(c, s, {}))
  {
    DispatchSaturates(s.pool, 0, c.limits);
  }

  lemma TakeNoWork(c: Config, s: State, k: nat)
    requires k <= |Offered(s.room, s.pressure)|
    requires ForWorkers(c, Offered(s.room, s.pressure)[..k]) == []
    ensures Take(c, s, k).pool == s.pool
  {
    assert ItemsFor([]) == [];
  }

  lemma PassConserving(c: Config, s: State)
    requires Core(c, s) && Conserving(c, s)
    ensures Conserving(c, ProcessQueue(c, s, {}))
  {
    if s.active < c.maxConcurrent {
      var k := PassSize(c, s);
      var toWorkers := ForWorkers(c, Offered(s.room, s.pressure)[..k]) != [];
      var s' := Take(c, s, k);
      assert Core(c, s') by { TakeKeeps(c, s, k); }
      assert toWorkers || Conserving(c, s') by {
        if !toWorkers { TakeNoWork(c, s, k); }
      }
      EndPassConserving(c, s', toWorkers);
    }
  }

  lemma TickConserving(c: Config, s: State)
    requires Inv(c, s) && Conserving(c, s)
    ensures Conserving(c, ProcessQueue(c, s.(pending := false), {}))
  {
    UnsignalledCore(c, s);
    PassConserving(c, s.(pending := false));
  }

  lemma FailureConserving(c: Config, s: State, i: nat)
    requires Inv(c, s) && Conserving(c, s) && Harmless(c, s, Failure(i, {}))
    ensures Conserving(c, WorkerFailure(c, s, i, {}))
  {
    if i < |s.pool.busy| && i in s.pool.jobs {
      ResultConserving(c, s, i, false);
      WorkerResultKeeps(c, s, i, false, {});
      ResultAssigns(c, s, i, false, {});
      FlagCleared(c, WorkerResult(c, s, i, false, {}), i);
    } else {
      FlagCleared(c, s, i);
    }
  }

  lemma EndPassConserving(c: Config, s: State, toWorkers: bool)
    requires Core(c, s) && (toWorkers || Conserving(c, s))
    ensures Conserving(c, EndPass(c, s, toWorkers, {}))
  {
    SendWorkConserving(c, s);
  }

  lemma {:induction false} FiringSamePool(c: Config, s: State, keys: seq<string>, why: Trigger, now: int)
    ensures StartFiring(c, s, keys, why, now).pool == s.pool
    decreases keys
  {
    if keys != [] {
      var j := Find(s.room.batches, keys[0]);
      if j < |s.room.batches| && Fires(why, s.room.batches[j].batch, now) {
        FiringSamePool(c, StartBatch(c, s, keys[0], now), keys[1..], why, now);
      } else {
        FiringSamePool(c, s, keys[1..], why, now);
      }
    }
  }

  lemma BatchSamePool(c: Config, s: State, category: string, now: int)
    ensures StartBatch(c, s, category, now).pool == s.pool
  {
  }

  lemma MemorySamePool(c: Config, s: State, usage: real, gc: bool, now: int)
    ensures MemoryCheck(c, s, usage, gc, now).pool == s.pool
  {
    var s2 := Cleanup(c, s.(pressure := usage > 0.75), now);
    var s3 := DropNewest(s2);
    FiringSamePool(c, s3, Keys(s3.room.batches), Heavy, now);
  }

  /** Only passes, results, failures and `initialized` messages touch the pool. */
  lemma StepSamePool(c: Config, s: State, e: Event)
    requires !e.ProcessTick? && !e.ResultMessage? && !e.ReadyMessage? && !e.Failure?
    ensures Step(c, s, e).pool == s.pool
  {
    match e
    case AgingTick(now) => FiringSamePool(c, s, Keys(s.room.batches), Aged, now);
    case MemoryTick(usage, gc, now) => MemorySamePool(c, s, usage, gc, now);
    case BatchTick(category, now) => BatchSamePool(c, s, category, now);
    case _ =>
  }

  lemma StepConserving(c: Config, s: State, e: Event)
    requires Inv(c, s) && Conserving(c, s) && Harmless(c, s, e) && SendsSucceed(e)
    ensures Conserving(c, Step(c, s, e))
  {
    match e
    case ProcessTick(_) => TickConserving(c, s);
    case ResultMessage(i, ok, _) => ResultConserving(c, s, i, ok);
    case ReadyMessage(i) => FlagCleared(c, s, i);
    case Failure(i, _) => FailureConserving(c, s, i);
    case _ => StepSamePool(c, s, e);
  }

  lemma ResultConserving(c: Config, s: State, i: nat, ok: bool)
    requires Inv(c, s) && Conserving(c, s)
    ensures Conserving(c, WorkerResult(c, s, i, ok, {}))
  {
    if i < |s.pool.busy| {
      SettleKeeps(c, s, i, ok);
      SendWorkConserving(c, Settle(s, i, ok));
    }
  }

  /** While sends succeed, an idle worker and a waiting item coexist only if the item's type is at its limit. */
  lemma {:induction false} RunConserving(c: Config, es: seq<Event>)
    requires ValidConfig(c) && HarmlessRun(c, es)
    requires forall k :: 0 <= k < |es| ==> SendsSucceed(es[k])
    ensures Conserving(c, Run(c, Initial(c), es))
  {
    if es != [] {
      var n := |es| - 1;
      var init := es[..n];
      HarmlessPrefix(c, es, init);
      var s := Run(c, Initial(c), init);
      assert Inv(c, s) by { RunKeeps(c, init); }
      RunConserving(c, init);
      assert es[..n] == init;
      StepConserving(c, s, es[n]);
    }
  }

  // ---------------------------------------------------------------- when a failure is harmful

  /** How many items of type `k` wait. */
  function WaitingOf(q: seq<WorkItem>, k: Workload): nat {
    if q == [] then 0 else WaitingOf(q[..|q| - 1], k) + if TypeOf(q[|q| - 1]) == k then 1 else 0
  }

  /** How many items of type `k` could be sent if there were enough workers. */
  function SendableOf(p: Pool, k: Workload, limits: PerType): int {
    Max(0, Min(WaitingOf(p.queue, k), limits.At(k) - p.active.At(k)))
  }

  function Sendable(p: Pool, limits: PerType): int {
    SendableOf(p, Cpu, limits) + SendableOf(p, Memory, limits) + SendableOf(p, Custom, limits)
  }

  /** The idle workers among `a` to `i - 1`, without those in `but`. */
  function IdleIn(busy: seq<bool>, a: nat, i: nat, but: set<nat>): nat
    requires i <= |busy|
    decreases i - a
  {
    if a >= i then 0 else (if busy[a] || a in but then 0 else 1) + IdleIn(busy, a + 1, i, but)
  }

  lemma {:induction false} IdleFrame(busy: seq<bool>, busy': seq<bool>, a: nat, i: nat, but: set<nat>)
    requires i <= |busy| == |busy'| && forall j :: a <= j < i ==> busy[j] == busy'[j]
    ensures IdleIn(busy, a, i, but) == IdleIn(busy', a, i, but)
    decreases i - a
  {
    if a < i { IdleFrame(busy, busy', a + 1, i, but); }
  }

  /** If no idle worker is in `but`, leaving it out changes nothing. */
  lemma {:induction false} IdleSame(busy: seq<bool>, a: nat, i: nat, but: set<nat>)
    requires i <= |busy| && forall j :: a <= j < i && j in but ==> busy[j]
    ensures IdleIn(busy, a, i, but) == IdleIn(busy, a, i, {})
    decreases i - a
  {
    if a < i { IdleSame(busy, a + 1, i, but); }
  }

  lemma {:induction false} WaitingAppend(a: seq<WorkItem>, b: seq<WorkItem>, k: Workload)
    ensures WaitingOf(a + b, k) == WaitingOf(a, k) + WaitingOf(b, k)
  {
    if b == [] {
      assert a + b == a;
    } else {
      assert (a + b)[..|a + b| - 1] == a + b[..|b| - 1];
      WaitingAppend(a, b[..|b| - 1], k);
    }
  }

  lemma WaitingWithout(q: seq<WorkItem>, j: nat, k: Workload)
    requires j < |q|
    ensures WaitingOf(q, k) == WaitingOf(q[..j] + q[j + 1..], k) + if TypeOf(q[j]) == k then 1 else 0
  {
    var a, x, b := q[..j], [q[j]], q[j + 1..];
    assert q == a + (x + b);
    WaitingAppend(a, x + b, k);
    WaitingAppend(x, b, k);
    WaitingAppend(a, b, k);
    assert x[..0] == [];
  }

  lemma {:induction false} WaitingWitness(q: seq<WorkItem>, k: Workload)
    requires WaitingOf(q, k) > 0
    ensures exists w :: w in q && TypeOf(w) == k
  {
    var n := |q| - 1;
    if TypeOf(q[n]) == k {
      assert q[n] in q;
    } else {
      WaitingWitness(q[..n], k);
      var w :| w in q[..n] && TypeOf(w) == k;
      assert w in q;
    }
  }

  lemma FirstRoomFinds(q: seq<WorkItem>, w: WorkItem, active: PerType, limits: PerType)
    requires w in q && HasRoom(w, active, limits)
    ensures FirstRoom(q, active, limits) < |q|
  {
  }

  /** Something can be sent exactly if the search finds something. */
  lemma SendableFinds(p: Pool, limits: PerType)
    ensures Sendable(p, limits) > 0 <==> FirstRoom(p.queue, p.active, limits) < |p.queue|
  {
    var f := FirstRoom(p.queue, p.active, limits);
    if f < |p.queue| {
      WaitingWithout(p.queue, f, TypeOf(p.queue[f]));
    } else if Sendable(p, limits) > 0 {
      var k := if SendableOf(p, Cpu, limits) > 0 then Cpu
               else if SendableOf(p, Memory, limits) > 0 then Memory else Custom;
      WaitingWitness(p.queue, k);
      var w :| w in p.queue && TypeOf(w) == k;
      FirstRoomFinds(p.queue, w, p.active, limits);
    }
  }

  /** An item leaves the queue; `sent` says whether its type's counter went up. */
  lemma PickSends(p: Pool, f: nat, q: Pool, limits: PerType, sent: bool)
    requires f < |p.queue| && HasRoom(p.queue[f], p.active, limits)
    requires q.queue == p.queue[..f] + p.queue[f + 1..]
    requires q.active == if sent then p.active.Put(TypeOf(p.queue[f]), p.active.At(TypeOf(p.queue[f])) + 1)
                         else p.active
    ensures Sendable(p, limits) - 1 <= Sendable(q, limits) <= Sendable(p, limits) - if sent then 1 else 0
  {
    PickSendsOf(p, f, q, limits, sent, Cpu);
    PickSendsOf(p, f, q, limits, sent, Memory);
    PickSendsOf(p, f, q, limits, sent, Custom);
  }

  lemma PickSendsOf(p: Pool, f: nat, q: Pool, limits: PerType, sent: bool, k: Workload)
    requires f < |p.queue| && HasRoom(p.queue[f], p.active, limits)
    requires q.queue == p.queue[..f] + p.queue[f + 1..]
    requires q.active == if sent then p.active.Put(TypeOf(p.queue[f]), p.active.At(TypeOf(p.queue[f])) + 1)
                         else p.active
    ensures
      var x, y := SendableOf(p, k, limits), SendableOf(q, k, limits);
      if k == TypeOf(p.queue[f]) then x - 1 <= y <= x - (if sent then 1 else 0) else x == y
  {
    WaitingWithout(p.queue, f, k);
  }

  ghost predicate TypedQueue(q: seq<WorkItem>) { forall w :: w in q ==> Typed(w) }

  lemma TurnSkips(p: Pool, i: nat, limits: PerType, failing: set<nat>, o: Pool)
    requires TypedQueue(p.queue) && i < |p.busy| && o == Offer(p, i, limits, failing).pool
    requires p.busy[i] || FirstRoom(p.queue, p.active, limits) == |p.queue|
    ensures o == p
  {
    if !p.busy[i] { PickNothing(p.queue, p.active, limits); }
  }

  /** A turn that takes an item: the queue, the counters and the flags after it. */
  lemma TurnTakes(p: Pool, i: nat, limits: PerType, failing: set<nat>, o: Pool, f: nat)
    requires TypedQueue(p.queue) && i < |p.busy| && !p.busy[i] && o == Offer(p, i, limits, failing).pool
    requires f == FirstRoom(p.queue, p.active, limits) < |p.queue|
    ensures o.queue == p.queue[..f] + p.queue[f + 1..]
    ensures o.busy == if i in failing then p.busy else p.busy[i := true]
    ensures o.active == if i !in failing then p.active.Put(TypeOf(p.queue[f]), p.active.At(TypeOf(p.queue[f])) + 1)
                        else p.active
  {
    PickAt(p.queue, p.active, limits, f);
    PickedPool(p, i, limits, failing, o, Dequeue(p.queue, p.active, limits), p.queue[f]);
  }

  lemma PickedPool(p: Pool, i: nat, limits: PerType, failing: set<nat>, o: Pool, d: Pick, w: WorkItem)
    requires i < |p.busy| && !p.busy[i] && o == Offer(p, i, limits, failing).pool
    requires d == Dequeue(p.queue, p.active, limits) && d.item == Some(w)
    ensures o.queue == d.rest && o.busy == (if i in failing then p.busy else p.busy[i := true])
    ensures o.active == if i !in failing then p.active.Put(TypeOf(w), p.active.At(TypeOf(w)) + 1) else p.active
  {
  }

  /** `y` is `x` less between `least` and `most`, or nothing if that is below zero. */
  ghost predicate FewerBy(x: int, y: int, least: nat, most: nat) {
    Max(0, x - most) <= y <= Max(0, x - least)
  }

  ghost predicate SendsFewer(p: Pool, q: Pool, limits: PerType, least: nat, most: nat) {
    FewerBy(Sendable(p, limits), Sendable(q, limits), least, most)
  }

  lemma SendsFewerTwice(
    p: Pool, o: Pool, q: Pool, limits: PerType, a: nat, b: nat, a': nat, b': nat, least: nat, most: nat)
    requires SendsFewer(p, o, limits, a, b) && SendsFewer(o, q, limits, a', b') && least == a + a' && most == b + b'
    ensures SendsFewer(p, q, limits, least, most)
  {
  }

  /** An idle worker takes one of the sendable items, if there is one; if the send fails, another may take its place. */
  lemma TurnSends(p: Pool, i: nat, limits: PerType, failing: set<nat>, o: Pool, x: int, y: int)
    requires TypedQueue(p.queue) && i < |p.busy| && o == Offer(p, i, limits, failing).pool
    requires x == Sendable(p, limits) && y == Sendable(o, limits)
    ensures FewerBy(x, y, if p.busy[i] || i in failing then 0 else 1, if p.busy[i] then 0 else 1)
  {
    var f := FirstRoom(p.queue, p.active, limits);
    if p.busy[i] {
      TurnSkips(p, i, limits, failing, o);
    } else if f == |p.queue| {
      assert x == 0 by { SendableFinds(p, limits); }
      TurnSkips(p, i, limits, failing, o);
    } else {
      assert x - 1 <= y <= x - if i !in failing then 1 else 0 by {
        TurnTakes(p, i, limits, failing, o, f);
        PickSends(p, f, o, limits, i !in failing);
      }
    }
  }

  lemma TurnFrame(p: Pool, a: nat, i: nat, limits: PerType, failing: set<nat>, o: Pool)
    requires TypedQueue(p.queue) && a < i <= |p.busy| && o == Offer(p, a, limits, failing).pool
    ensures TypedQueue(o.queue) && |o.busy| == |p.busy| && forall j :: a < j < i ==> o.busy[j] == p.busy[j]
  {
    var f := FirstRoom(p.queue, p.active, limits);
    if p.busy[a] || f == |p.queue| {
      TurnSkips(p, a, limits, failing, o);
    } else {
      TurnTakes(p, a, limits, failing, o, f);
      assert forall w :: w in o.queue ==> w in p.queue;
    }
  }

  /** How many idle workers there are does not change by the turns of others. */
  lemma TurnIdle(p: Pool, a: nat, i: nat, limits: PerType, failing: set<nat>, o: Pool, but: set<nat>)
    requires TypedQueue(p.queue) && a < i <= |p.busy| && o == Offer(p, a, limits, failing).pool
    ensures IdleIn(p.busy, a, i, but) == (if p.busy[a] || a in but then 0 else 1) + IdleIn(o.busy, a + 1, i, but)
  {
    TurnFrame(p, a, i, limits, failing, o);
    IdleFrame(p.busy, o.busy, a + 1, i, but);
  }

  /** The turn of worker `a`, and what it leaves for the others: `least` and `most` count the idle workers. */
  lemma FirstTurn(p: Pool, a: nat, i: nat, limits: PerType, failing: set<nat>, r: Pool, least: nat, most: nat)
    returns (o: Pool, l: nat, m: nat)
    requires TypedQueue(p.queue) && a < i <= |p.busy| && r == DispatchRange(p, a, i, limits, failing).pool
    requires least == IdleIn(p.busy, a, i, failing) && most == IdleIn(p.busy, a, i, {})
    ensures TypedQueue(o.queue) && |o.busy| == |p.busy| && r == DispatchRange(o, a + 1, i, limits, failing).pool
    ensures l <= least && least - l == IdleIn(o.busy, a + 1, i, failing)
    ensures m <= most && most - m == IdleIn(o.busy, a + 1, i, {})
    ensures SendsFewer(p, o, limits, l, m)
  {
    o := Offer(p, a, limits, failing).pool;
    l, m := if p.busy[a] || a in failing then 0 else 1, if p.busy[a] then 0 else 1;
    TurnSends(p, a, limits, failing, o, Sendable(p, limits), Sendable(o, limits));
    TurnIdle(p, a, i, limits, failing, o, failing);
    TurnIdle(p, a, i, limits, failing, o, {});
    TurnFrame(p, a, i, limits, failing, o);
  }

  lemma NoTurn(p: Pool, a: nat, limits: PerType, failing: set<nat>, r: Pool)
    requires a <= |p.busy| && r == DispatchRange(p, a, a, limits, failing).pool
    ensures SendsFewer(p, r, limits, 0, 0)
  {
  }

  /** Over the turns of workers `a` to `i - 1` each idle worker takes one item, until none can be sent. */
  lemma {:induction false} RangeSends(
    p: Pool, a: nat, i: nat, limits: PerType, failing: set<nat>, r: Pool, least: nat, most: nat)
    requires TypedQueue(p.queue) && a <= i <= |p.busy|
    requires r == DispatchRange(p, a, i, limits, failing).pool
    requires least == IdleIn(p.busy, a, i, failing) && most == IdleIn(p.busy, a, i, {})
    ensures SendsFewer(p, r, limits, least, most)
    decreases i - a
  {
    if a == i {
      NoTurn(p, a, limits, failing, r);
    } else {
      var o, l, m := FirstTurn(p, a, i, limits, failing, r, least, most);
      RangeSends(o, a + 1, i, limits, failing, r, least - l, most - m);
      SendsFewerTwice(p, o, r, limits, l, m, least - l, most - m, least, most);
    }
  }

  /** When worker `i`'s turn comes, something is left if the idle workers before it were too few. */
  lemma LeftFor(p: Pool, i: nat, limits: PerType, failing: set<nat>, q: Pool)
    requires TypedQueue(p.queue) && i <= |p.busy| && q == DispatchRange(p, 0, i, limits, failing).pool
    ensures
      var left := FirstRoom(q.queue, q.active, limits) < |q.queue|;
      && (Sendable(p, limits) > IdleIn(p.busy, 0, i, {}) ==> left)
      && (left ==> Sendable(p, limits) > IdleIn(p.busy, 0, i, failing))
  {
    RangeSends(p, 0, i, limits, failing, q, IdleIn(p.busy, 0, i, failing), IdleIn(p.busy, 0, i, {}));
    SendableFinds(q, limits);
  }

  lemma ReassignedWhen(c: Config, s: State, i: nat, failing: set<nat>)
    requires TypedQueue(s.pool.queue) && c.useWorkers && i < |s.pool.busy|
    ensures
      var x := Sendable(Release(s.pool, i), c.limits);
      && (i !in failing && x > IdleIn(s.pool.busy, 0, i, {}) ==> Reassigned(c, s, i, failing))
      && (Reassigned(c, s, i, failing) ==> i !in failing && x > IdleIn(s.pool.busy, 0, i, failing))
  {
    var p := Release(s.pool, i);
    LeftFor(p, i, c.limits, failing, DispatchRange(p, 0, i, c.limits, failing).pool);
    IdleFrame(p.busy, s.pool.busy, 0, i, {});
    IdleFrame(p.busy, s.pool.busy, 0, i, failing);
  }

  /**
   * A failure of a working worker does harm if it can be sent work itself and more items can be sent, once the failed
   * task gives its slot back, than there are idle workers before it; and only if they outnumber those of
   * them whose sends succeed. If none of them fails, that is exact.
   */
  lemma FailureHarmExactly(c: Config, s: State, i: nat, failing: set<nat>)
    requires Inv(c, s) && c.useWorkers && i in s.pool.jobs
    ensures i < |s.pool.busy|
    ensures
      var harm := !Harmless(c, s, Failure(i, failing));
      var x := Sendable(Release(s.pool, i), c.limits);
      var idle := IdleIn(s.pool.busy, 0, i, {});
      && (i !in failing && x > idle ==> harm)
      && (harm ==> i !in failing && x > IdleIn(s.pool.busy, 0, i, failing))
      && ((forall j :: 0 <= j < i && j in failing ==> s.pool.busy[j]) ==> (harm <==> i !in failing && x > idle))
  {
    HarmIsReassignment(c, s, i, failing);
    ReassignedWhen(c, s, i, failing);
    if forall j :: 0 <= j < i && j in failing ==> s.pool.busy[j] { IdleSame(s.pool.busy, 0, i, failing); }
  }

  lemma HarmIsReassignment(c: Config, s: State, i: nat, failing: set<nat>)
    requires Inv(c, s) && i in s.pool.jobs
    ensures i < |s.pool.busy| && TypedQueue(s.pool.queue)
    ensures !Harmless(c, s, Failure(i, failing)) <==> Reassigned(c, s, i, failing)
  {
  }
}
