/** Whether the scheduler can finish what it accepted, once no new work arrives. */
module SchedulerDrain {
  import opened Tasks
  import opened Queues
  import opened WorkerPool
  import opened SchedulerSpec
  import opened SchedulerInv
  import opened SchedulerRuns

  /** A harmless event that brings no new work; workers answer only what they were sent. */
  predicate Unprompted(c: Config, s: State, e: Event) {
    && Harmless(c, s, e)
    && match e
       case EnqueueCall(_, _) => false
       case ResultMessage(i, _, _) => i in s.pool.jobs
       case _ => true
  }

  ghost predicate Continuation(c: Config, s: State, es: seq<Event>)
    decreases |es|
  {
    es == [] || (Unprompted(c, s, es[0]) && Continuation(c, Step(c, s, es[0]), es[1..]))
  }

  predicate Drained(s: State) { Total(s.room) == 0 && s.active == 0 }

  /** A task that a pass would hand to the workers waits in a queue. */
  ghost predicate WorkArrives(c: Config, r: Room) {
    exists x :: (x in r.high || x in r.normal) && Eligible(c, x)
  }

  /**
   * Worker tasks wait, no worker will answer, and no pass will dispatch: either no queued task would go to
   * the workers, or the waiting worker tasks hold every slot.
   */
  ghost predicate Stuck(c: Config, s: State) {
    && s.pool.queue != []
    && s.pool.jobs == map[]
    && (!WorkArrives(c, s.room) || |s.pool.queue| >= c.maxConcurrent)
  }

  // ---------------------------------------------------------------- drained means settled

  lemma {:induction false} NoBatches(bs: seq<Entry>, t: Task)
    requires BatchCount(bs) == 0
    ensures BatchTimes(bs, t) == 0
  {
    if bs != [] { NoBatches(bs[1..], t); }
  }

  lemma {:induction false} NoGroups(gs: seq<Group>, t: Task)
    requires GroupsOk(gs) && GroupSlots(gs) == 0
    ensures RunningTimes(gs, t) == 0
  {
    if gs != [] {
      assert gs[0].running == [];
      NoGroups(gs[1..], t);
    }
  }

  lemma EmptyPool(p: Pool, t: Task)
    requires Held(p) == 0
    ensures PoolTimes(p, t) == 0
  {
    assert p.jobs == map[];
    assert TasksOf(p.queue) == [];
    NoneHeld(|p.busy|, t);
  }

  /** When nothing waits and no slot is in use, every accepted task was settled, once. */
  lemma DrainedSettled(c: Config, s: State, t: Task)
    requires Inv(c, s) && Drained(s)
    ensures SettledTimes(s.log, t) == if t in s.log.accepted then 1 else 0
  {
    NoBatches(s.room.batches, t);
    NoGroups(s.groups, t);
    EmptyPool(s.pool, t);
    ExactlyOnePlace(c, s, t);
  }

  // ---------------------------------------------------------------- stuck stays stuck

  lemma {:induction false} NothingForWorkers(c: Config, ts: seq<Task>)
    ensures ForWorkers(c, ts) == [] <==> forall i :: 0 <= i < |ts| ==> !Eligible(c, ts[i])
  {
    if ts != [] {
      NothingForWorkers(c, ts[..|ts| - 1]);
      assert forall i :: 0 <= i < |ts| - 1 ==> ts[..|ts| - 1][i] == ts[i];
    }
  }

  /** Nothing joined the high and normal queues. */
  ghost predicate Shrank(r: Room, r': Room) {
    (forall x :: x in r'.high ==> x in r.high) && (forall x :: x in r'.normal ==> x in r.normal)
  }

  lemma {:induction false} YoungSubset(ts: seq<Task>, now: int, timeoutMs: nat)
    ensures forall x :: x in Young(ts, now, timeoutMs) ==> x in ts
  {
    if ts != [] { YoungSubset(ts[..|ts| - 1], now, timeoutMs); }
  }

  lemma {:induction false} FiringRoom(c: Config, s: State, keys: seq<string>, why: Trigger, now: int)
    ensures
      var r := StartFiring(c, s, keys, why, now).room;
      r.high == s.room.high && r.normal == s.room.normal
    decreases keys
  {
    if keys != [] {
      var j := Find(s.room.batches, keys[0]);
      if j < |s.room.batches| && Fires(why, s.room.batches[j].batch, now) {
        FiringRoom(c, StartBatch(c, s, keys[0], now), keys[1..], why, now);
      } else {
        FiringRoom(c, s, keys[1..], why, now);
      }
    }
  }

  lemma MemoryRoom(c: Config, s: State, usage: real, gc: bool, now: int)
    ensures Shrank(s.room, MemoryCheck(c, s, usage, gc, now).room)
  {
    var s2 := Cleanup(c, s.(pressure := usage > 0.75), now);
    YoungSubset(s.room.high, now, c.taskTimeoutMs);
    YoungSubset(s.room.normal, now, c.taskTimeoutMs);
    var s3 := DropNewest(s2);
    FiringRoom(c, s3, Keys(s3.room.batches), Heavy, now);
  }

  lemma TimeoutRoom(s: State, x: Task)
    ensures Shrank(s.room, QueueTimeout(s, x).room)
  {
  }

  /** Events other than enqueues, passes and worker messages leave the pool alone and bring no task. */
  lemma QuietStep(c: Config, s: State, e: Event)
    requires !e.EnqueueCall? && !e.ProcessTick? && !e.ResultMessage? && !e.ReadyMessage? && !e.Failure?
    ensures Step(c, s, e).pool == s.pool && Shrank(s.room, Step(c, s, e).room)
  {
    StepSamePool(c, s, e);
    match e
    case AgingTick(now) => FiringRoom(c, s, Keys(s.room.batches), Aged, now);
    case MemoryTick(usage, gc, now) => MemoryRoom(c, s, usage, gc, now);
    case TimerFired(t) => TimeoutRoom(s, t);
    case _ =>
  }

  /** The line holds no task for the workers if the high and normal queues hold none. */
  lemma LineForWorkers(c: Config, r: Room, last: nat, pressure: bool, k: nat)
    requires RoomInv(r, last) && !WorkArrives(c, r) && k <= |Offered(r, pressure)|
    ensures ForWorkers(c, Offered(r, pressure)[..k]) == []
  {
    var line := Offered(r, pressure);
    forall i | 0 <= i < k ensures !Eligible(c, line[..k][i]) {
      assert line[i] in r.high || line[i] in r.normal || line[i] in r.low;
    }
    NothingForWorkers(c, line[..k]);
  }

  /** A pass that takes nothing for the workers leaves the pool alone. */
  lemma IdlePass(c: Config, s: State, failing: set<nat>, k: nat)
    requires s.active < c.maxConcurrent && !s.processing && k == PassSize(c, s)
    requires ForWorkers(c, Offered(s.room, s.pressure)[..k]) == []
    ensures
      var s' := ProcessQueue(c, s, failing);
      s'.pool == s.pool && s'.room == Shifted(s.room, s.pressure, k)
  {
    TakeNoWork(c, s, k);
  }

  lemma StuckPass(c: Config, s: State, failing: set<nat>)
    requires Core(c, s) && Stuck(c, s)
    ensures Stuck(c, ProcessQueue(c, s, failing))
  {
    if s.active < c.maxConcurrent {
      var k := PassSize(c, s);
      assert !WorkArrives(c, s.room) by { assert |s.pool.queue| <= s.active; }
      LineForWorkers(c, s.room, s.lastId, s.pressure, k);
      IdlePass(c, s, failing, k);
      ShiftedShrinks(s.room, s.pressure, k);
      StuckFrame(c, s, ProcessQueue(c, s, failing));
    }
  }

  lemma ShiftedShrinks(r: Room, pressure: bool, k: nat)
    requires k <= |Offered(r, pressure)|
    ensures Shrank(r, Shifted(r, pressure, k))
  {
  }

  lemma StuckStays(c: Config, s: State, e: Event)
    requires Inv(c, s) && Stuck(c, s) && Unprompted(c, s, e)
    ensures Stuck(c, Step(c, s, e))
  {
    match e
    case ProcessTick(failing) =>
      UnsignalledCore(c, s);
      StuckPass(c, s.(pending := false), failing);
    case ReadyMessage(i) => FlagCleared(c, s, i);
    case Failure(i, _) => FlagCleared(c, s, i);
    case _ =>
      QuietStep(c, s, e);
      StuckFrame(c, s, Step(c, s, e));
  }

  lemma StuckFrame(c: Config, s: State, s': State)
    requires Stuck(c, s) && s'.pool == s.pool && Shrank(s.room, s'.room)
    ensures Stuck(c, s')
  {
  }

  /** Nothing that happens without new work frees a stuck scheduler. */
  lemma {:induction false} StuckNeverDrains(c: Config, s: State, es: seq<Event>)
    requires Inv(c, s) && Stuck(c, s) && Continuation(c, s, es)
    ensures Stuck(c, Run(c, s, es)) && !Drained(Run(c, s, es))
    decreases |es|
  {
    if es == [] {
    } else {
      StuckStays(c, s, es[0]);
      StepKeepsExactly(c, s, es[0]);
      StuckNeverDrains(c, Step(c, s, es[0]), es[1..]);
      RunFront(c, s, es);
    }
  }

  lemma {:induction false} RunFront(c: Config, s: State, es: seq<Event>)
    requires es != []
    ensures Run(c, s, es) == Run(c, Step(c, s, es[0]), es[1..])
  {
    var n := |es| - 1;
    if n == 0 {
      assert es[..0] == [] && es[1..] == [];
      assert Run(c, s, es[..0]) == s;
    } else {
      RunFront(c, s, es[..n]);
      assert es[..n][1..] == es[1..][..n - 1];
      assert es[1..][n - 1] == es[n];
    }
  }

  // ---------------------------------------------------------------- every event leaves less to do

  ghost function GroupWork(gs: seq<Group>): nat {
    if gs == [] then 0 else 1 + |gs[0].running| + GroupWork(gs[1..])
  }

  /** How much is left to do; every task has further to go the earlier it stands. */
  ghost function Effort(s: State): nat {
    3 * Total(s.room) + 2 * |s.inline| + |s.unreleased| + GroupWork(s.groups) + Held(s.pool) + |s.pool.queue|
  }

  /** Only the wake-up flag and the pressure flag may differ. */
  predicate Unchanged(s: State, s': State) { s' == s.(pending := s'.pending, pressure := s'.pressure) }

  ghost predicate Lowers(s: State, s': State) { Effort(s') < Effort(s) || Unchanged(s, s') }

  lemma LowersTwice(s: State, s1: State, s2: State)
    requires Lowers(s, s1) && Lowers(s1, s2)
    ensures Lowers(s, s2)
  {
  }

  lemma {:induction false} GroupWorkAppend(a: seq<Group>, b: seq<Group>)
    ensures GroupWork(a + b) == GroupWork(a) + GroupWork(b)
  {
    if a == [] {
      assert a + b == b;
    } else {
      assert (a + b)[1..] == a[1..] + b;
      GroupWorkAppend(a[1..], b);
    }
  }

  lemma GroupWorkOne(g: Group)
    ensures GroupWork([g]) == 1 + |g.running|
  {
    assert [g][1..] == [];
  }

  lemma GroupWorkSplit(gs: seq<Group>, g: nat, x: Group)
    requires g < |gs|
    ensures GroupWork(gs) == GroupWork(gs[..g] + gs[g + 1..]) + 1 + |gs[g].running|
    ensures GroupWork(gs[g := x]) == GroupWork(gs[..g] + gs[g + 1..]) + 1 + |x.running|
  {
    assert gs == gs[..g] + ([gs[g]] + gs[g + 1..]);
    GroupWorkAround(gs[..g], gs[g], gs[g + 1..]);
    GroupWorkSwap(gs, g, x);
  }

  lemma GroupWorkSwap(gs: seq<Group>, g: nat, x: Group)
    requires g < |gs|
    ensures GroupWork(gs[g := x]) == GroupWork(gs[..g] + gs[g + 1..]) + 1 + |x.running|
  {
    assert gs[g := x] == gs[..g] + ([x] + gs[g + 1..]);
    GroupWorkAround(gs[..g], x, gs[g + 1..]);
  }

  lemma GroupWorkAround(a: seq<Group>, x: Group, b: seq<Group>)
    ensures GroupWork(a + ([x] + b)) == GroupWork(a + b) + 1 + |x.running|
  {
    GroupWorkAppend(a, b);
    GroupWorkAppend(a, [x] + b);
    GroupWorkAppend([x], b);
    GroupWorkOne(x);
  }

  lemma GroupSettleLowers(s: State, g: nat, i: nat, ok: bool)
    ensures Lowers(s, GroupSettle(s, g, i, ok))
  {
    if g < |s.groups| && i < |s.groups[g].running| { GroupWorkSplit(s.groups, g, Tally(s.groups[g], i, ok)); }
  }

  lemma GroupFinishLowers(s: State, g: nat)
    ensures Lowers(s, GroupFinish(s, g))
  {
    if g < |s.groups| && s.groups[g].running == [] { GroupWorkSplit(s.groups, g, s.groups[g]); }
  }

  lemma TimeoutLowers(c: Config, s: State, x: Task)
    requires Inv(c, s)
    ensures Lowers(s, QueueTimeout(s, x))
  {
    if Waiting(s.room, x) { RemoveTimes(s.room, x, s.lastId, x); }
  }

  // -- batches

  lemma OpenGroupLowers(s: State, bs: seq<Entry>, g: Group)
    requires 0 < g.count == |g.running| && BatchCount(s.room.batches) == BatchCount(bs) + g.count
    ensures Effort(OpenGroup(s, bs, g)) < Effort(s)
  {
    GroupWorkAppend(s.groups, [g]);
    GroupWorkOne(g);
  }

  /** A batch that is in the map and has a free slot starts; otherwise nothing happens. */
  lemma StartBatchLowers(c: Config, s: State, category: string, now: int)
    requires Inv(c, s)
    ensures
      var s' := StartBatch(c, s, category, now);
      if Find(s.room.batches, category) < |s.room.batches| && s.active < c.maxConcurrent
      then Effort(s') < Effort(s) else s' == s
  {
    var bs := s.room.batches;
    var j := Find(bs, category);
    StartBatchCases(c, s, category, now, j);
    if j < |bs| && s.active < c.maxConcurrent {
      assert BatchOk(bs[j], s.lastId);
      var k := Min(|bs[j].batch.tasks|, c.maxConcurrent - s.active);
      assert BatchCount(bs) == BatchCount(TakeFromBatch(bs, j, k, now)) + k by {
        TakeFromBatchTimes(bs, j, k, now, s.lastId, ANY);
      }
      OpenGroupLowers(s, TakeFromBatch(bs, j, k, now), Group(bs[j].batch.tasks[..k], k, 0, 0));
    }
  }

  lemma {:induction false} FiringLowers(c: Config, s: State, keys: seq<string>, why: Trigger, now: int)
    requires Inv(c, s)
    ensures Lowers(s, StartFiring(c, s, keys, why, now))
    decreases keys
  {
    if keys != [] {
      var j := Find(s.room.batches, keys[0]);
      if j < |s.room.batches| && Fires(why, s.room.batches[j].batch, now) {
        var s1 := StartBatch(c, s, keys[0], now);
        assert Lowers(s, s1) by { StartBatchLowers(c, s, keys[0], now); }
        assert Inv(c, s1) by { StartBatchKeeps(c, s, keys[0], now); }
        FiringLowers(c, s1, keys[1..], why, now);
        LowersTwice(s, s1, StartFiring(c, s1, keys[1..], why, now));
      } else {
        FiringLowers(c, s, keys[1..], why, now);
      }
    }
  }

  // -- memory pressure

  lemma {:induction false} NoneExpired(ts: seq<Task>, now: int, timeoutMs: nat)
    requires Expired(ts, now, timeoutMs) == []
    ensures Young(ts, now, timeoutMs) == ts
  {
    if ts != [] {
      var init, x := ts[..|ts| - 1], ts[|ts| - 1];
      var y, rest := Young(init, now, timeoutMs), Expired(init, now, timeoutMs);
      assert !TooOld(x.timestamp, now, timeoutMs) && rest == [] by {
        assert |Expired(ts, now, timeoutMs)| == (if TooOld(x.timestamp, now, timeoutMs) then 1 else 0) + |rest|;
      }
      assert y == init by { NoneExpired(init, now, timeoutMs); }
      assert Young(ts, now, timeoutMs) == init + [x];
    }
  }

  lemma {:induction false} NoBatchExpired(bs: seq<Entry>, now: int, timeoutMs: nat, last: nat)
    requires BatchesOk(bs, last) && ExpiredBatches(bs, now, timeoutMs) == []
    ensures YoungBatches(bs, now, timeoutMs) == bs
  {
    if bs != [] {
      assert BatchOk(bs[0], last);
      NoBatchExpired(bs[1..], now, timeoutMs, last);
      assert bs == [bs[0]] + bs[1..];
    }
  }

  lemma CleanupLowers(c: Config, s: State, now: int)
    requires Inv(c, s)
    ensures Lowers(s, Cleanup(c, s, now))
  {
    var out := CleanedOut(s.room, now, c.taskTimeoutMs);
    if out == [] {
      CleanedNothing(s.room, now, c.taskTimeoutMs, s.lastId);
      CleanupNothing(c, s, now);
    } else {
      CleanupSomething(c, s, now);
    }
  }

  lemma CleanupNothing(c: Config, s: State, now: int)
    requires CleanedOut(s.room, now, c.taskTimeoutMs) == [] && Cleaned(s.room, now, c.taskTimeoutMs) == s.room
    ensures Cleanup(c, s, now) == s
  {
    assert s.log.timedOut + [] == s.log.timedOut;
  }

  lemma CleanupSomething(c: Config, s: State, now: int)
    requires CleanedOut(s.room, now, c.taskTimeoutMs) != []
    ensures Effort(Cleanup(c, s, now)) < Effort(s)
  {
    CleanedTimes(s.room, now, c.taskTimeoutMs, ANY);
  }

  lemma CleanedNothing(r: Room, now: int, timeoutMs: nat, last: nat)
    requires RoomInv(r, last) && CleanedOut(r, now, timeoutMs) == []
    ensures Cleaned(r, now, timeoutMs) == r
  {
    NoneExpired(r.high, now, timeoutMs);
    NoneExpired(r.normal, now, timeoutMs);
    NoneExpired(r.low, now, timeoutMs);
    NoBatchExpired(r.batches, now, timeoutMs, last);
  }

  lemma DropNewestLowers(s: State)
    ensures Lowers(s, DropNewest(s))
  {
    ReducedTimes(s.room, ANY);
    var k := Survivors(s.room.low);
    if k == |s.room.low| {
      assert s.room.low[..k] == s.room.low && s.room.low[k..] == [];
      assert s.log.rejected + [] == s.log.rejected;
    }
  }

  lemma MemoryLowers(c: Config, s: State, usage: real, gc: bool, now: int)
    requires Inv(c, s)
    ensures Lowers(s, MemoryCheck(c, s, usage, gc, now))
  {
    var s1 := s.(pressure := usage > 0.75);
    if s1.pressure {
      var s2 := Cleanup(c, s1, now);
      assert Inv(c, s1) by { PressureKeeps(c, s, usage > 0.75); }
      CleanupLowers(c, s1, now);
      if usage > 0.9 && gc { ForceLowers(c, s1, s2, now); }
    }
  }

  lemma ForceLowers(c: Config, s1: State, s2: State, now: int)
    requires Inv(c, s1) && s2 == Cleanup(c, s1, now) && Lowers(s1, s2)
    ensures Lowers(s1, ForceReduce(c, s2, now))
  {
    var s3 := DropNewest(s2);
    assert Inv(c, s3) by {
      CleanupKeeps(c, s1, now);
      DropNewestKeeps(c, s2);
    }
    DropNewestLowers(s2);
    LowersTwice(s1, s2, s3);
    FiringLowers(c, s3, Keys(s3.room.batches), Heavy, now);
    LowersTwice(s1, s3, ForceReduce(c, s2, now));
  }

  // -- the pool

  lemma {:induction false} DequeueShrinks(q: seq<WorkItem>, active: PerType, limits: PerType)
    ensures |Dequeue(q, active, limits).rest| <= |q|
  {
    if q != [] { DequeueShrinks(q[1..], active, limits); }
  }

  lemma OfferShrinks(p: Pool, i: nat, limits: PerType, failing: set<nat>)
    requires i < |p.busy|
    ensures |Offer(p, i, limits, failing).pool.queue| <= |p.queue|
  {
    DequeueShrinks(p.queue, p.active, limits);
  }

  lemma {:induction false} RangeShrinks(p: Pool, a: nat, n: nat, limits: PerType, failing: set<nat>)
    requires a <= n <= |p.busy|
    ensures |DispatchRange(p, a, n, limits, failing).pool.queue| <= |p.queue|
    decreases n - a
  {
    if a < n {
      OfferShrinks(p, a, limits, failing);
      RangeShrinks(Offer(p, a, limits, failing).pool, a + 1, n, limits, failing);
    }
  }

  /** A dispatch moves worker tasks on, whichever sends fail, and touches nothing else. */
  lemma SendWorkLowers(c: Config, s: State, failing: set<nat>)
    requires PoolInv(s.pool, c.limits)
    ensures Effort(SendWork(c, s, failing)) <= Effort(s)
  {
    DispatchKeeps(s.pool, 0, |s.pool.busy|, c.limits, failing);
    RangeShrinks(s.pool, 0, |s.pool.busy|, c.limits, failing);
  }

  lemma SettleLowers(c: Config, s: State, i: nat, ok: bool)
    requires Inv(c, s) && i in s.pool.jobs
    ensures Effort(Settle(s, i, ok)) < Effort(s)
  {
    ReleaseKeeps(s.pool, i, c.limits);
  }

  lemma ResultLowers(c: Config, s: State, i: nat, ok: bool, failing: set<nat>)
    requires Inv(c, s) && i in s.pool.jobs
    ensures Effort(WorkerResult(c, s, i, ok, failing)) < Effort(s)
  {
    SettleLowers(c, s, i, ok);
    assert PoolInv(Settle(s, i, ok).pool, c.limits) by { ReleaseKeeps(s.pool, i, c.limits); }
    SendWorkLowers(c, Settle(s, i, ok), failing);
  }

  lemma FailureLowers(c: Config, s: State, i: nat, failing: set<nat>)
    requires Inv(c, s) && Harmless(c, s, Failure(i, failing))
    ensures Lowers(s, WorkerFailure(c, s, i, failing))
  {
    if i < |s.pool.busy| && i in s.pool.jobs {
      var s1 := WorkerResult(c, s, i, false, failing);
      ResultLowers(c, s, i, false, failing);
      assert Inv(c, s1) by { WorkerResultKeeps(c, s, i, false, failing); }
      assert i !in s1.pool.jobs by { ResultAssigns(c, s, i, false, failing); }
      FlagCleared(c, s1, i);
    } else {
      FlagCleared(c, s, i);
    }
  }

  // -- the pass

  lemma TakeLowers(c: Config, s: State, k: nat)
    requires 0 < k <= |Offered(s.room, s.pressure)|
    ensures Effort(Take(c, s, k)) < Effort(s)
  {
    var taken := Offered(s.room, s.pressure)[..k];
    ShiftedTimes(s.room, s.pressure, k, ANY);
    PartsTyped(c, taken);
  }

  lemma EndPassLowers(c: Config, s: State, toWorkers: bool, failing: set<nat>)
    requires PoolInv(s.pool, c.limits)
    ensures Effort(EndPass(c, s, toWorkers, failing)) <= Effort(s)
  {
    SendWorkLowers(c, s, failing);
  }

  /** A pass that takes anything lowers the effort, whichever sends fail. */
  lemma PassLowers(c: Config, s: State, failing: set<nat>, k: nat)
    requires Core(c, s) && s.active < c.maxConcurrent && k == PassSize(c, s) > 0
    ensures Effort(ProcessQueue(c, s, failing)) < Effort(s)
  {
    var t := Take(c, s, k);
    TakeLowers(c, s, k);
    assert PoolInv(t.pool, c.limits) by { TakeKeeps(c, s, k); }
    EndPassLowers(c, t, ForWorkers(c, Offered(s.room, s.pressure)[..k]) != [], failing);
  }

  lemma EmptyPass(c: Config, s: State, failing: set<nat>)
    requires !s.processing && s.active < c.maxConcurrent && PassSize(c, s) == 0
    ensures Unchanged(s, ProcessQueue(c, s, failing))
  {
    var line := Offered(s.room, s.pressure);
    assert line[..0] == [] && ForWorkers(c, []) == [] && ForInline(c, []) == [];
    assert ItemsFor([]) == [] && AddAll(s.pool, []) == s.pool && s.inline + [] == s.inline;
    assert Shifted(s.room, s.pressure, 0) == s.room;
  }

  lemma TickLowers(c: Config, s: State, failing: set<nat>)
    requires Inv(c, s)
    ensures Lowers(s, Step(c, s, ProcessTick(failing)))
  {
    var s0 := s.(pending := false);
    if s.pending && s.active < c.maxConcurrent {
      assert Core(c, s0) by { UnsignalledCore(c, s); }
      if PassSize(c, s0) > 0 {
        PassLowers(c, s0, failing, PassSize(c, s0));
      } else {
        EmptyPass(c, s0, failing);
      }
    }
  }

  // -- all events

  lemma BatchTickLowers(c: Config, s: State, category: string, now: int)
    requires Inv(c, s)
    ensures Lowers(s, Step(c, s, BatchTick(category, now)))
  {
    StartBatchLowers(c, s, category, now);
  }

  lemma AgingLowers(c: Config, s: State, now: int)
    requires Inv(c, s)
    ensures Lowers(s, Step(c, s, AgingTick(now)))
  {
    FiringLowers(c, s, Keys(s.room.batches), Aged, now);
  }

  lemma IntervalLowers(c: Config, s: State)
    ensures Lowers(s, Step(c, s, IntervalTick))
  {
  }

  lemma InlineSettleLowers(s: State, i: nat, ok: bool)
    ensures Lowers(s, InlineSettle(s, i, ok))
  {
  }

  lemma InlineReleaseLowers(s: State, i: nat)
    ensures Lowers(s, InlineRelease(s, i))
  {
  }

  lemma QuietLowers(c: Config, s: State, e: Event)
    requires Inv(c, s) && !e.EnqueueCall? && !e.ProcessTick? && !e.ResultMessage? && !e.ReadyMessage? && !e.Failure?
    ensures Lowers(s, Step(c, s, e))
  {
    match e
    case BatchTick(category, now) => BatchTickLowers(c, s, category, now);
    case AgingTick(now) => AgingLowers(c, s, now);
    case MemoryTick(usage, gc, now) => MemoryTickLowers(c, s, usage, gc, now);
    case TimerFired(t) => TimerLowers(c, s, t);
    case _ => SmallLowers(c, s, e);
  }

  lemma MemoryTickLowers(c: Config, s: State, usage: real, gc: bool, now: int)
    requires Inv(c, s)
    ensures Lowers(s, Step(c, s, MemoryTick(usage, gc, now)))
  {
    assert Step(c, s, MemoryTick(usage, gc, now)) == MemoryCheck(c, s, usage, gc, now);
    MemoryLowers(c, s, usage, gc, now);
  }

  lemma TimerLowers(c: Config, s: State, t: Task)
    requires Inv(c, s)
    ensures Lowers(s, Step(c, s, TimerFired(t)))
  {
    assert Step(c, s, TimerFired(t)) == QueueTimeout(s, t);
    TimeoutLowers(c, s, t);
  }

  lemma SmallLowers(c: Config, s: State, e: Event)
    requires e.IntervalTick? || e.InlineSettled? || e.InlineReleased? || e.GroupSettled? || e.GroupFinished?
    ensures Lowers(s, Step(c, s, e))
  {
    match e
    case IntervalTick => IntervalLowers(c, s);
    case InlineSettled(i, ok) =>
      assert Step(c, s, e) == InlineSettle(s, i, ok);
      InlineSettleLowers(s, i, ok);
    case InlineReleased(i) =>
      assert Step(c, s, e) == InlineRelease(s, i);
      InlineReleaseLowers(s, i);
    case GroupSettled(g, i, ok) =>
      assert Step(c, s, e) == GroupSettle(s, g, i, ok);
      GroupSettleLowers(s, g, i, ok);
    case GroupFinished(g) =>
      assert Step(c, s, e) == GroupFinish(s, g);
      GroupFinishLowers(s, g);
  }

  /** Every unprompted event, whichever sends fail, leaves less to do or changes nothing but the two flags. */
  lemma StepLowers(c: Config, s: State, e: Event)
    requires Inv(c, s) && Unprompted(c, s, e)
    ensures Lowers(s, Step(c, s, e))
  {
    match e
    case ProcessTick(failing) => TickLowers(c, s, failing);
    case ResultMessage(i, ok, failing) => ResultLowers(c, s, i, ok, failing);
    case ReadyMessage(i) => FlagCleared(c, s, i);
    case Failure(i, failing) => FailureLowers(c, s, i, failing);
    case _ => QuietLowers(c, s, e);
  }

  predicate Effective(c: Config, s: State, e: Event) { !Unchanged(s, Step(c, s, e)) }

  /** How many events of a continuation do anything. */
  function EffectiveCount(c: Config, s: State, es: seq<Event>): nat
    decreases |es|
  {
    if es == [] then 0
    else (if Effective(c, s, es[0]) then 1 else 0) + EffectiveCount(c, Step(c, s, es[0]), es[1..])
  }

  /** The effective events of a continuation are paid for by the effort, so there are boundedly many. */
  lemma {:induction false} ContinuationBounded(c: Config, s: State, es: seq<Event>)
    requires Inv(c, s) && Continuation(c, s, es)
    ensures EffectiveCount(c, s, es) + Effort(Run(c, s, es)) <= Effort(s)
    decreases |es|
  {
    if es != [] {
      var s1 := Step(c, s, es[0]);
      StepLowers(c, s, es[0]);
      assert Inv(c, s1) by { StepKeepsExactly(c, s, es[0]); }
      ContinuationBounded(c, s1, es[1..]);
      RunFront(c, s, es);
    }
  }

  // ---------------------------------------------------------------- progress

  /** The pressure flag counts as one more thing to wait for. */
  ghost function Work(s: State): nat { Effort(s) + if s.pressure then 1 else 0 }

  /**
   * An unprompted event that leaves less to do and does not get the scheduler stuck. Batches are started by
   * the aging timer only: whether another start is scheduled depends on sizes the model leaves open.
   */
  ghost predicate Progress(c: Config, s: State, e: Event) {
    Unprompted(c, s, e) && !e.BatchTick? && Work(Step(c, s, e)) < Work(s) && !Stuck(c, Step(c, s, e))
  }

  /** A conserving state is not stuck: with no task assigned every worker is idle and every type below its limit. */
  lemma ConservingNotStuck(c: Config, s: State)
    requires ValidConfig(c) && Core(c, s) && Conserving(c, s)
    ensures !Stuck(c, s)
  {
    if s.pool.queue != [] && s.pool.jobs == map[] {
      var w := s.pool.queue[0];
      assert w in s.pool.queue && Typed(w);
      var k := TypeOf(w);
      NoneAssigned(|s.pool.busy|, k);
      assert s.pool.active.At(k) == 0 && 1 <= c.limits.At(k);
      assert !s.pool.busy[0];
      assert HasRoom(w, s.pool.active, c.limits);
    }
  }

  lemma PressureEnds(c: Config, s: State)
    requires s.pressure && !Stuck(c, s)
    ensures Progress(c, s, MemoryTick(0.0, false, 0))
  {
  }

  lemma InlineEnds(c: Config, s: State)
    requires s.inline != [] && !Stuck(c, s)
    ensures Progress(c, s, InlineSettled(0, true))
  {
  }

  lemma SlotReturns(c: Config, s: State)
    requires s.unreleased != [] && !Stuck(c, s)
    ensures Progress(c, s, InlineReleased(0))
  {
  }

  lemma GroupEnds(c: Config, s: State)
    requires s.groups != [] && !Stuck(c, s)
    ensures exists e :: Progress(c, s, e)
  {
    if s.groups[0].running == [] {
      GroupCloses(c, s);
    } else {
      GroupTaskEnds(c, s);
    }
  }

  lemma GroupCloses(c: Config, s: State)
    requires s.groups != [] && s.groups[0].running == [] && !Stuck(c, s)
    ensures Progress(c, s, GroupFinished(0))
  {
    GroupFinishLowers(s, 0);
    assert |GroupFinish(s, 0).groups| < |s.groups|;
  }

  lemma GroupTaskEnds(c: Config, s: State)
    requires s.groups != [] && s.groups[0].running != [] && !Stuck(c, s)
    ensures Progress(c, s, GroupSettled(0, 0, true))
  {
    GroupSettleLowers(s, 0, 0, true);
    assert |GroupSettle(s, 0, 0, true).groups[0].running| < |s.groups[0].running|;
  }

  lemma WorkerAnswers(c: Config, s: State, i: nat)
    requires ValidConfig(c) && Inv(c, s) && i in s.pool.jobs
    ensures Progress(c, s, ResultMessage(i, true, {}))
  {
    var s1 := Settle(s, i, true);
    var s2 := SendWork(c, s1, {});
    assert Step(c, s, ResultMessage(i, true, {})) == s2;
    assert Effort(s2) < Effort(s) by { ResultLowers(c, s, i, true, {}); }
    assert !Stuck(c, s2) by {
      SettleKeeps(c, s, i, true);
      SendWorkUnsticks(c, s1);
    }
    assert s2.pressure == s.pressure;
  }

  lemma SendWorkUnsticks(c: Config, s: State)
    requires ValidConfig(c) && Core(c, s)
    ensures !Stuck(c, SendWork(c, s, {}))
  {
    SendWorkKeeps(c, s, {});
    SendWorkConserving(c, s);
    ConservingNotStuck(c, SendWork(c, s, {}));
  }

  /** The aging timer starts the first batch once it is old enough, and lowers the effort. */
  lemma FirstBatchAges(c: Config, s: State, now: int)
    requires Inv(c, s) && s.room.batches != [] && s.active < c.maxConcurrent
    requires now - s.room.batches[0].batch.createdAt >= BATCH_MAX_AGE_MS
    ensures Effort(Step(c, s, AgingTick(now))) < Effort(s)
  {
    var keys := Keys(s.room.batches);
    var s1 := StartBatch(c, s, keys[0], now);
    FirstFires(c, s, now, keys, s1);
    StartBatchLowers(c, s, keys[0], now);
    StartBatchKeeps(c, s, keys[0], now);
    RestLowers(c, s, s1, keys[1..], now);
  }

  lemma FirstFires(c: Config, s: State, now: int, keys: seq<string>, s1: State)
    requires s.room.batches != [] && now - s.room.batches[0].batch.createdAt >= BATCH_MAX_AGE_MS
    requires keys == Keys(s.room.batches) && s1 == StartBatch(c, s, keys[0], now)
    ensures Find(s.room.batches, keys[0]) == 0
    ensures Step(c, s, AgingTick(now)) == StartFiring(c, s1, keys[1..], Aged, now)
  {
  }

  lemma RestLowers(c: Config, s: State, s1: State, keys: seq<string>, now: int)
    requires Inv(c, s1) && Effort(s1) < Effort(s)
    ensures Effort(StartFiring(c, s1, keys, Aged, now)) < Effort(s)
  {
    FiringLowers(c, s1, keys, Aged, now);
  }

  lemma BatchStarts(c: Config, s: State)
    requires Inv(c, s) && s.room.batches != [] && s.active < c.maxConcurrent && s.pool.queue == []
    ensures exists e :: Progress(c, s, e)
  {
    var now := s.room.batches[0].batch.createdAt + BATCH_MAX_AGE_MS;
    FirstBatchAges(c, s, now);
    FiringSamePool(c, s, Keys(s.room.batches), Aged, now);
    FiringPressure(c, s, Keys(s.room.batches), Aged, now);
    assert Progress(c, s, AgingTick(now));
  }

  lemma {:induction false} FiringPressure(c: Config, s: State, keys: seq<string>, why: Trigger, now: int)
    ensures StartFiring(c, s, keys, why, now).pressure == s.pressure
    decreases keys
  {
    if keys != [] {
      var j := Find(s.room.batches, keys[0]);
      if j < |s.room.batches| && Fires(why, s.room.batches[j].batch, now) {
        FiringPressure(c, StartBatch(c, s, keys[0], now), keys[1..], why, now);
      } else {
        FiringPressure(c, s, keys[1..], why, now);
      }
    }
  }

  /** What a pass leaves of the high and normal queues still holds the worker task it did not take. */
  lemma StillArrives(c: Config, r: Room, last: nat, pressure: bool, k: nat)
    requires RoomInv(r, last) && WorkArrives(c, r) && k <= |Offered(r, pressure)|
    requires ForWorkers(c, Offered(r, pressure)[..k]) == []
    ensures WorkArrives(c, Shifted(r, pressure, k))
  {
    var line, r' := Offered(r, pressure), Shifted(r, pressure, k);
    var x :| (x in r.high || x in r.normal) && Eligible(c, x);
    OfferedIs(r, pressure, x);
    NotTaken(c, line, k, x);
    assert x in Offered(r', pressure) by { ShiftedRest(r, pressure, k); }
    OfferedIs(r', pressure, x);
    assert Line(r'.low, Low, last) by { ShiftedKeeps(r, pressure, k, last); }
  }

  lemma OfferedIs(r: Room, pressure: bool, x: Task)
    ensures x in r.high || x in r.normal ==> x in Offered(r, pressure)
    ensures x in Offered(r, pressure) ==> x in r.high || x in r.normal || x in r.low
  {
  }

  lemma NotTaken(c: Config, line: seq<Task>, k: nat, x: Task)
    requires k <= |line| && ForWorkers(c, line[..k]) == [] && x in line && Eligible(c, x)
    ensures x in line[k..]
  {
    NothingForWorkers(c, line[..k]);
    assert line == line[..k] + line[k..];
    assert x !in line[..k];
  }

  lemma PassNotStuck(c: Config, s: State, k: nat)
    requires ValidConfig(c) && Core(c, s) && s.active < c.maxConcurrent && k == PassSize(c, s)
    requires s.pool.queue == [] || (WorkArrives(c, s.room) && |s.pool.queue| < c.maxConcurrent)
    ensures !Stuck(c, ProcessQueue(c, s, {}))
  {
    var taken := Offered(s.room, s.pressure)[..k];
    if ForWorkers(c, taken) == [] {
      IdlePass(c, s, {}, k);
      if s.pool.queue != [] { StillArrives(c, s.room, s.lastId, s.pressure, k); }
    } else {
      var t := Take(c, s, k);
      assert Core(c, t) by { TakeKeeps(c, s, k); }
      EndPassConserving(c, t, true);
      EndPassKeeps(c, t, true, {});
      ConservingNotStuck(c, ProcessQueue(c, s, {}));
    }
  }

  lemma PassPressure(c: Config, s: State, failing: set<nat>)
    ensures ProcessQueue(c, s, failing).pressure == s.pressure
  {
  }

  lemma PassHelps(c: Config, s: State)
    requires ValidConfig(c) && Inv(c, s) && s.active < c.maxConcurrent && Offered(s.room, s.pressure) != []
    requires s.pool.queue == [] || (WorkArrives(c, s.room) && |s.pool.queue| < c.maxConcurrent)
    ensures Progress(c, s, ProcessTick({}))
  {
    var s0 := s.(pending := false);
    UnsignalledCore(c, s);
    assert s.pending;
    PassNotStuck(c, s0, PassSize(c, s0));
    PassLowers(c, s0, {}, PassSize(c, s0));
    PassPressure(c, s0, {});
  }

  /** Only the waiting room and the worker queue are left. */
  lemma QueuesLeft(c: Config, s: State)
    requires ValidConfig(c) && Inv(c, s) && !Stuck(c, s) && !Drained(s)
    requires !s.pressure && s.inline == [] && s.unreleased == [] && s.groups == [] && s.pool.jobs == map[]
    ensures exists e :: Progress(c, s, e)
  {
    assert s.active == |s.pool.queue|;
    if Offered(s.room, s.pressure) != [] {
      PassHelps(c, s);
    } else {
      assert s.room.high == [] && s.room.normal == [] && s.room.low == [];
      assert s.pool.queue == [];
      BatchStarts(c, s);
    }
  }

  lemma Progresses(c: Config, s: State)
    requires ValidConfig(c) && Inv(c, s) && !Stuck(c, s) && !Drained(s)
    ensures exists e :: Progress(c, s, e)
  {
    if s.pressure {
      PressureEnds(c, s);
    } else if s.inline != [] {
      InlineEnds(c, s);
    } else if s.unreleased != [] {
      SlotReturns(c, s);
    } else if s.groups != [] {
      GroupEnds(c, s);
    } else if s.pool.jobs != map[] {
      var i :| i in s.pool.jobs;
      WorkerAnswers(c, s, i);
    } else {
      QueuesLeft(c, s);
    }
  }

  // ---------------------------------------------------------------- the theorem

  /** A continuation that settles everything, with no batch start but those of the timers. */
  ghost predicate DrainsBy(c: Config, s: State, es: seq<Event>) {
    Continuation(c, s, es) && Drained(Run(c, s, es)) && forall i :: 0 <= i < |es| ==> !es[i].BatchTick?
  }

  ghost predicate CanDrain(c: Config, s: State) { exists es :: DrainsBy(c, s, es) }

  lemma NextStep(c: Config, s: State) returns (e: Event, s': State)
    requires ValidConfig(c) && Inv(c, s) && !Stuck(c, s) && !Drained(s)
    ensures Unprompted(c, s, e) && !e.BatchTick? && s' == Step(c, s, e)
    ensures Work(s') < Work(s) && !Stuck(c, s') && Inv(c, s')
  {
    Progresses(c, s);
    e :| Progress(c, s, e);
    s' := Step(c, s, e);
    StepKeepsExactly(c, s, e);
  }

  lemma DrainsAfter(c: Config, s: State, e: Event, es: seq<Event>, s': State)
    requires Unprompted(c, s, e) && !e.BatchTick? && s' == Step(c, s, e) && DrainsBy(c, s', es)
    ensures DrainsBy(c, s, [e] + es)
  {
    assert ([e] + es)[1..] == es;
    RunFront(c, s, [e] + es);
  }

  lemma {:induction false} Drains(c: Config, s: State)
    requires ValidConfig(c) && Inv(c, s) && !Stuck(c, s)
    ensures CanDrain(c, s)
    decreases Work(s)
  {
    if Drained(s) {
      assert DrainsBy(c, s, []);
    } else {
      var e, s' := NextStep(c, s);
      Drains(c, s');
      var es :| DrainsBy(c, s', es);
      DrainsAfter(c, s, e, es, s');
    }
  }

  /**
   * From a good state some continuation without new work settles every accepted task and frees every slot
   * exactly if the scheduler is not stuck.
   */
  lemma DrainsExactly(c: Config, s: State)
    requires ValidConfig(c) && Inv(c, s)
    ensures CanDrain(c, s) <==> !Stuck(c, s)
  {
    if Stuck(c, s) {
      forall es | Continuation(c, s, es) ensures !Drained(Run(c, s, es)) { StuckNeverDrains(c, s, es); }
    } else {
      Drains(c, s);
    }
  }

  /** An event that can happen without new work and does something. */
  predicate Acts(c: Config, s: State, e: Event) { Unprompted(c, s, e) && !e.BatchTick? && Effective(c, s, e) }

  /** Without pressure, a scheduler in which nothing acts any more is drained or stuck. */
  lemma HaltsDrainedOrStuck(c: Config, s: State)
    requires ValidConfig(c) && Inv(c, s) && !s.pressure
    ensures Drained(s) || Stuck(c, s) || exists e :: Acts(c, s, e)
  {
    if !Drained(s) && !Stuck(c, s) {
      Progresses(c, s);
      var e :| Progress(c, s, e);
      assert Acts(c, s, e);
    }
  }

  /** On runs whose sends succeed everything accepted can still be settled. */
  lemma RunsDrain(c: Config, es: seq<Event>, s: State)
    requires ValidConfig(c) && HarmlessRun(c, es) && s == Run(c, Initial(c), es)
    requires forall k :: 0 <= k < |es| ==> SendsSucceed(es[k])
    ensures CanDrain(c, s)
  {
    assert Inv(c, s) by { RunKeeps(c, es); }
    assert Conserving(c, s) by { RunConserving(c, es); }
    ConservingNotStuck(c, s);
    Drains(c, s);
  }
}
