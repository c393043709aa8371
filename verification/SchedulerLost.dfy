/** A task that is nowhere stays nowhere: in every state, whatever happens next. No invariant is assumed. */
module SchedulerLost {
  import opened Tasks
  import opened Queues
  import opened WorkerPool
  import opened SchedulerSpec

  ghost predicate OutOfBatches(bs: seq<Entry>, t: Task) {
    forall e :: e in bs ==> t !in e.batch.tasks
  }

  ghost predicate OutOfRoom(r: Room, t: Task) {
    t !in r.high && t !in r.normal && t !in r.low && OutOfBatches(r.batches, t)
  }

  ghost predicate OutOfQueue(q: seq<WorkItem>, t: Task) {
    forall w :: w in q ==> w.task != t
  }

  ghost predicate OutOfPool(p: Pool, t: Task) {
    OutOfQueue(p.queue, t) && forall i :: i in p.jobs ==> p.jobs[i].task != t
  }

  ghost predicate OutOfGroups(gs: seq<Group>, t: Task) {
    forall g :: g in gs ==> t !in g.running
  }

  ghost predicate Unsettled(l: Log, t: Task) {
    t !in l.resolved && t !in l.rejected && t !in l.timedOut
  }

  /** An id given out, a task in no place, and never resolved or rejected. */
  ghost predicate Lost(s: State, t: Task) {
    && t.id <= s.lastId
    && OutOfRoom(s.room, t) && t !in s.inline && OutOfGroups(s.groups, t) && OutOfPool(s.pool, t)
    && Unsettled(s.log, t)
  }

  // ---------------------------------------------------------------- the waiting room

  lemma PlaceOut(r: Room, x: Task, batch: bool, now: int, t: Task)
    requires OutOfRoom(r, t) && x != t
    ensures OutOfRoom(Place(r, x, batch, now), t)
  {
    if batch && ShouldBatch(x, r.batches) { AddToBatchOut(x, r.batches, now, t); }
  }

  lemma AddToBatchOut(x: Task, bs: seq<Entry>, now: int, t: Task)
    requires OutOfBatches(bs, t) && x != t
    ensures OutOfBatches(AddToBatch(x, bs, now), t)
  {
    var j := Find(bs, x.category);
    var r := AddToBatch(x, bs, now);
    assert j < |bs| ==> bs[j] in bs;
    forall e | e in r ensures t !in e.batch.tasks {
      var i :| 0 <= i < |r| && r[i] == e;
      if i != j { assert e == bs[i]; }
    }
  }

  lemma RemoveOut(r: Room, x: Task, t: Task)
    requires OutOfRoom(r, t)
    ensures OutOfRoom(Remove(r, x), t)
  {
    if x !in r.high && x !in r.normal && x !in r.low { RemoveFromBatchesOut(r.batches, x, t); }
  }

  lemma RemoveFromBatchesOut(bs: seq<Entry>, x: Task, t: Task)
    requires OutOfBatches(bs, t)
    ensures OutOfBatches(RemoveFromBatches(bs, x), t)
  {
    var j := Holder(bs, x);
    if j < |bs| {
      assert bs[j] in bs;
      var bs' := bs[j := Leave(bs[j], x)];
      forall e | e in bs' ensures t !in e.batch.tasks {
        assert e == Leave(bs[j], x) || e in bs;
      }
    }
  }

  lemma ShiftedOut(r: Room, pressure: bool, k: nat, t: Task)
    requires OutOfRoom(r, t) && k <= |Offered(r, pressure)|
    ensures OutOfRoom(Shifted(r, pressure, k), t) && t !in Offered(r, pressure)[..k]
  {
  }

  lemma {:induction false} PartsOut(c: Config, ts: seq<Task>, t: Task)
    requires t !in ts
    ensures t !in ForInline(c, ts) && t !in ForWorkers(c, ts)
  {
    if ts != [] { PartsOut(c, ts[..|ts| - 1], t); }
  }

  lemma TakeFromBatchOut(bs: seq<Entry>, j: nat, k: nat, now: int, t: Task)
    requires OutOfBatches(bs, t) && j < |bs| && k <= |bs[j].batch.tasks|
    ensures OutOfBatches(TakeFromBatch(bs, j, k, now), t) && t !in bs[j].batch.tasks[..k]
  {
    assert bs[j] in bs;
    var r := TakeFromBatch(bs, j, k, now);
    forall e | e in r ensures t !in e.batch.tasks {
      assert e in bs || (k < |bs[j].batch.tasks| && e == r[j]);
    }
  }

  lemma {:induction false} YoungOut(ts: seq<Task>, now: int, timeoutMs: nat, t: Task)
    requires t !in ts
    ensures t !in Young(ts, now, timeoutMs) && t !in Expired(ts, now, timeoutMs)
  {
    if ts != [] { YoungOut(ts[..|ts| - 1], now, timeoutMs, t); }
  }

  lemma {:induction false} YoungBatchesOut(bs: seq<Entry>, now: int, timeoutMs: nat, t: Task)
    requires OutOfBatches(bs, t)
    ensures OutOfBatches(YoungBatches(bs, now, timeoutMs), t) && t !in ExpiredBatches(bs, now, timeoutMs)
  {
    if bs != [] {
      assert bs[0] in bs;
      YoungBatchesOut(bs[1..], now, timeoutMs, t);
    }
  }

  lemma {:induction false} TailFirstOut(ts: seq<Task>, t: Task)
    requires t !in ts
    ensures t !in TailFirst(ts)
  {
    if ts != [] { TailFirstOut(ts[..|ts| - 1], t); }
  }

  // ---------------------------------------------------------------- the pool

  lemma {:induction false} DequeueOut(q: seq<WorkItem>, active: PerType, limits: PerType, t: Task)
    requires OutOfQueue(q, t)
    ensures
      var d := Dequeue(q, active, limits);
      OutOfQueue(d.rest, t) && OutOfQueue(d.dropped, t) && (d.item.Some? ==> d.item.value.task != t)
  {
    if q != [] {
      assert q[0] in q;
      DequeueOut(q[1..], active, limits, t);
    }
  }

  lemma TasksOut(q: seq<WorkItem>, t: Task)
    requires OutOfQueue(q, t)
    ensures t !in TasksOf(q)
  {
  }

  lemma OfferOut(p: Pool, i: nat, limits: PerType, failing: set<nat>, t: Task)
    requires OutOfPool(p, t) && i < |p.busy|
    ensures
      var r := Offer(p, i, limits, failing);
      OutOfPool(r.pool, t) && t !in r.failed
  {
    DequeueOut(p.queue, p.active, limits, t);
    TasksOut(Dequeue(p.queue, p.active, limits).dropped, t);
  }

  lemma {:induction false} RangeOut(p: Pool, i: nat, n: nat, limits: PerType, failing: set<nat>, t: Task)
    requires OutOfPool(p, t) && i <= n <= |p.busy|
    ensures
      var r := DispatchRange(p, i, n, limits, failing);
      OutOfPool(r.pool, t) && t !in r.failed
    decreases n - i
  {
    if i < n {
      OfferOut(p, i, limits, failing, t);
      RangeOut(Offer(p, i, limits, failing).pool, i + 1, n, limits, failing, t);
    }
  }

  lemma AddAllOut(p: Pool, ts: seq<Task>, t: Task)
    requires OutOfPool(p, t) && t !in ts
    ensures OutOfPool(AddAll(p, ts), t)
  {
    forall w | w in AddAll(p, ts).queue ensures w.task != t {
      assert w in p.queue || w in ItemsFor(ts);
    }
  }

  // ---------------------------------------------------------------- the events

  lemma EnqueueLost(c: Config, s: State, o: Request, now: int, t: Task)
    requires Lost(s, t)
    ensures Lost(Enqueue(c, s, o, now), t)
  {
    PlaceOut(s.room, NewTask(s, o, now), o.batch, now, t);
  }

  lemma TakeLost(c: Config, s: State, k: nat, t: Task)
    requires Lost(s, t) && k <= |Offered(s.room, s.pressure)|
    ensures Lost(Take(c, s, k), t)
  {
    var taken := Offered(s.room, s.pressure)[..k];
    ShiftedOut(s.room, s.pressure, k, t);
    PartsOut(c, taken, t);
    AddAllOut(s.pool, ForWorkers(c, taken), t);
  }

  lemma SendWorkLost(c: Config, s: State, failing: set<nat>, t: Task)
    requires Lost(s, t)
    ensures Lost(SendWork(c, s, failing), t)
  {
    RangeOut(s.pool, 0, |s.pool.busy|, c.limits, failing, t);
  }

  lemma PassLost(c: Config, s: State, failing: set<nat>, t: Task)
    requires Lost(s, t)
    ensures Lost(ProcessQueue(c, s, failing), t)
  {
    var k := PassSize(c, s);
    TakeLost(c, s, k, t);
    SendWorkLost(c, Take(c, s, k), failing, t);
  }

  lemma StartBatchLost(c: Config, s: State, category: string, now: int, t: Task)
    requires Lost(s, t)
    ensures Lost(StartBatch(c, s, category, now), t)
  {
    var bs := s.room.batches;
    var j := Find(bs, category);
    if j < |bs| && c.maxConcurrent - s.active > 0 {
      TakeFromBatchOut(bs, j, Min(|bs[j].batch.tasks|, c.maxConcurrent - s.active), now, t);
    }
  }

  lemma {:induction false} FiringLost(c: Config, s: State, keys: seq<string>, why: Trigger, now: int, t: Task)
    requires Lost(s, t)
    ensures Lost(StartFiring(c, s, keys, why, now), t)
    decreases keys
  {
    if keys != [] {
      var j := Find(s.room.batches, keys[0]);
      if j < |s.room.batches| && Fires(why, s.room.batches[j].batch, now) {
        StartBatchLost(c, s, keys[0], now, t);
        FiringLost(c, StartBatch(c, s, keys[0], now), keys[1..], why, now, t);
      } else {
        FiringLost(c, s, keys[1..], why, now, t);
      }
    }
  }

  lemma CleanupLost(c: Config, s: State, now: int, t: Task)
    requires Lost(s, t)
    ensures Lost(Cleanup(c, s, now), t)
  {
    YoungOut(s.room.high, now, c.taskTimeoutMs, t);
    YoungOut(s.room.normal, now, c.taskTimeoutMs, t);
    YoungOut(s.room.low, now, c.taskTimeoutMs, t);
    YoungBatchesOut(s.room.batches, now, c.taskTimeoutMs, t);
  }

  lemma DropNewestLost(s: State, t: Task)
    requires Lost(s, t)
    ensures Lost(DropNewest(s), t)
  {
    TailFirstOut(s.room.low[Survivors(s.room.low)..], t);
  }

  lemma MemoryLost(c: Config, s: State, usage: real, gc: bool, now: int, t: Task)
    requires Lost(s, t)
    ensures Lost(MemoryCheck(c, s, usage, gc, now), t)
  {
    var s1 := s.(pressure := usage > 0.75);
    var s2 := Cleanup(c, s1, now);
    var s3 := DropNewest(s2);
    CleanupLost(c, s1, now, t);
    DropNewestLost(s2, t);
    FiringLost(c, s3, Keys(s3.room.batches), Heavy, now, t);
  }

  lemma SettleLost(s: State, i: nat, ok: bool, t: Task)
    requires Lost(s, t) && i < |s.pool.busy|
    ensures Lost(Settle(s, i, ok), t)
  {
  }

  lemma ResultLost(c: Config, s: State, i: nat, ok: bool, failing: set<nat>, t: Task)
    requires Lost(s, t)
    ensures Lost(WorkerResult(c, s, i, ok, failing), t)
  {
    if i < |s.pool.busy| {
      SettleLost(s, i, ok, t);
      SendWorkLost(c, Settle(s, i, ok), failing, t);
    }
  }

  lemma GroupSettleLost(s: State, g: nat, i: nat, ok: bool, t: Task)
    requires Lost(s, t)
    ensures Lost(GroupSettle(s, g, i, ok), t)
  {
    if g < |s.groups| && i < |s.groups[g].running| {
      assert s.groups[g] in s.groups;
      forall x | x in s.groups[g := Tally(s.groups[g], i, ok)] ensures t !in x.running {
        assert x in s.groups || x == Tally(s.groups[g], i, ok);
      }
    }
  }

  lemma SmallLost(c: Config, s: State, e: Event, t: Task)
    requires Lost(s, t)
    requires e.IntervalTick? || e.InlineSettled? || e.InlineReleased? || e.GroupFinished? || e.ReadyMessage?
    ensures Lost(Step(c, s, e), t)
  {
  }

  /** For every state and every event, enqueues and harmful ones included: what is lost stays lost. */
  lemma LostStays(c: Config, s: State, e: Event, t: Task)
    requires Lost(s, t)
    ensures Lost(Step(c, s, e), t)
  {
    match e
    case EnqueueCall(o, now) => EnqueueLost(c, s, o, now, t);
    case ProcessTick(failing) => TickLost(c, s, failing, t);
    case GroupSettled(g, i, ok) => GroupSettleLost(s, g, i, ok, t);
    case TimerFired(x) => TimerLost(s, x, t);
    case ResultMessage(i, ok, failing) => ResultLost(c, s, i, ok, failing, t);
    case Failure(i, failing) => FailureLost(c, s, i, failing, t);
    case BatchTick(_, _) => SweepLost(c, s, e, t);
    case AgingTick(_) => SweepLost(c, s, e, t);
    case MemoryTick(_, _, _) => SweepLost(c, s, e, t);
    case _ => SmallLost(c, s, e, t);
  }

  lemma SweepLost(c: Config, s: State, e: Event, t: Task)
    requires Lost(s, t) && (e.BatchTick? || e.AgingTick? || e.MemoryTick?)
    ensures Lost(Step(c, s, e), t)
  {
    match e
    case BatchTick(category, now) => StartBatchLost(c, s, category, now, t);
    case AgingTick(now) => FiringLost(c, s, Keys(s.room.batches), Aged, now, t);
    case MemoryTick(usage, gc, now) => MemoryLost(c, s, usage, gc, now, t);
  }

  lemma TickLost(c: Config, s: State, failing: set<nat>, t: Task)
    requires Lost(s, t)
    ensures Lost(Step(c, s, ProcessTick(failing)), t)
  {
    PassLost(c, s.(pending := false), failing, t);
  }

  lemma FailureLost(c: Config, s: State, i: nat, failing: set<nat>, t: Task)
    requires Lost(s, t)
    ensures Lost(WorkerFailure(c, s, i, failing), t)
  {
    ResultLost(c, s, i, false, failing, t);
  }

  lemma TimerLost(s: State, x: Task, t: Task)
    requires Lost(s, t)
    ensures Lost(QueueTimeout(s, x), t)
  {
    if Waiting(s.room, x) {
      assert x != t by {
        var j := Holder(s.room.batches, x);
        if j < |s.room.batches| { assert s.room.batches[j] in s.room.batches; }
      }
      RemoveOut(s.room, x, t);
    }
  }

  /** A lost task is never settled, and in no place, in any state of any continuation. */
  lemma {:induction false} LostForGood(c: Config, s: State, es: seq<Event>, t: Task)
    requires Lost(s, t)
    ensures Lost(Run(c, s, es), t)
  {
    if es != [] {
      LostForGood(c, s, es[..|es| - 1], t);
      LostStays(c, Run(c, s, es[..|es| - 1]), es[|es| - 1], t);
    }
  }
}
