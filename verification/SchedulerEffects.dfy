/**
 * What each event of the scheduler does, in the caller's terms: independent of the functions
 * the specification is built from.
 */
module SchedulerEffects {
  import opened Tasks
  import opened Queues
  import opened WorkerPool
  import opened SchedulerSpec
  import opened SchedulerInv
  import opened SchedulerRuns
  import opened Subsequences

  // ---------------------------------------------------------------- enqueue

  predicate BadRequest(o: Request) { o.size <= 0 || o.category == "" }

  predicate TurnedAway(c: Config, s: State, o: Request) {
    (s.pressure && o.priority < 0) || Total(s.room) >= c.overflowThreshold
  }

  /** A bad option changes nothing; an overloaded or full scheduler only counts the refusal. */
  lemma EnqueueRefuses(c: Config, s: State, o: Request, now: int)
    ensures
      var s' := Step(c, s, EnqueueCall(o, now));
      && (BadRequest(o) ==> s' == s)
      && (!BadRequest(o) && TurnedAway(c, s, o) ==>
            s' == s.(refused := s.refused + 1,
                     stats := Stats(s.stats.processed, s.stats.rejected + 1, s.stats.timeout)))
  {
  }

  ghost predicate HasBatch(bs: seq<Entry>, category: string) { exists e :: e in bs && e.key == category }

  /** Small tasks of low priority join or open a batch if the caller allows it. */
  ghost predicate GoesToBatch(bs: seq<Entry>, o: Request) {
    o.batch && o.priority < 5 && (HasBatch(bs, o.category) || o.size <= 3)
  }

  /** `t` is last in the batch of its category, which may be new, and weighs at least one; no other batch changes. */
  ghost predicate JoinedBatch(bs: seq<Entry>, bs': seq<Entry>, t: Task, now: int) {
    if HasBatch(bs, t.category) then
      exists j :: 0 <= j < |bs| == |bs'| && bs[j].key == t.category
        && bs' == bs[j := Entry(bs[j].key, Batch(bs[j].batch.tasks + [t], bs[j].batch.category,
                                                 bs[j].batch.totalSize + Max(1, t.size),
                                                 bs[j].batch.createdAt))]
    else bs' == bs + [Entry(t.category, Batch([t], t.category, Max(1, t.size), now))]
  }

  ghost predicate JoinedQueue(r: Room, r': Room, t: Task) {
    && r'.batches == r.batches
    && r'.high == r.high + (if t.priority >= 5 then [t] else [])
    && r'.normal == r.normal + (if 0 <= t.priority < 5 then [t] else [])
    && r'.low == r.low + if t.priority < 0 then [t] else []
  }

  lemma BatchFound(bs: seq<Entry>, category: string)
    ensures HasBatch(bs, category) <==> Find(bs, category) < |bs|
  {
    var j := Find(bs, category);
    if j < |bs| { assert bs[j] in bs; }
  }

  lemma JoinsBatch(bs: seq<Entry>, t: Task, now: int)
    ensures JoinedBatch(bs, AddToBatch(t, bs, now), t, now)
  {
    var j := Find(bs, t.category);
    BatchFound(bs, t.category);
    if j == |bs| {
      assert [] + [t] == [t];
      assert AddToBatch(t, bs, now) == bs + [Entry(t.category, Batch([t], t.category, Max(1, t.size), now))];
    }
  }

  lemma JoinsQueue(r: Room, t: Task, batch: bool, now: int)
    requires !(batch && ShouldBatch(t, r.batches))
    ensures JoinedQueue(r, Place(r, t, batch, now), t)
  {
  }

  /**
   * An accepted task is what was asked for, gets the next id and the current time, and waits as the last one
   * in the batch of its category or in the queue of its priority; nothing else changes but the wake-up.
   */
  lemma EnqueueAccepts(c: Config, s: State, o: Request, now: int, t: Task)
    requires !BadRequest(o) && !TurnedAway(c, s, o)
    requires t == Task(s.lastId + 1, o.priority, o.category, o.size, o.workload, o.hasCode, now)
    ensures
      var s' := Step(c, s, EnqueueCall(o, now));
      && s' == s.(lastId := s.lastId + 1, room := s'.room, pending := true,
                  log := Log(s.log.accepted + [t], s.log.resolved, s.log.rejected, s.log.timedOut))
      && if GoesToBatch(s.room.batches, o)
         then s'.room == s.room.(batches := s'.room.batches) && JoinedBatch(s.room.batches, s'.room.batches, t, now)
         else JoinedQueue(s.room, s'.room, t)
  {
    BatchFound(s.room.batches, o.category);
    if o.batch && ShouldBatch(t, s.room.batches) {
      JoinsBatch(s.room.batches, t, now);
    } else {
      JoinsQueue(s.room, t, o.batch, now);
    }
  }

  // ---------------------------------------------------------------- the pass

  /** A task for a worker thread: workers are enabled, the priority is not negative, and the type is known. */
  predicate ForThread(c: Config, t: Task) {
    && c.useWorkers && t.priority >= 0
    && (t.workload == Some(Cpu) || t.workload == Some(Memory) || t.workload == Some(Custom))
  }

  /** The waiting tasks in the order a pass considers them. */
  function Line(s: State): seq<Task> {
    if s.pressure then s.room.high + s.room.normal else s.room.high + s.room.normal + s.room.low
  }

  lemma {:induction false} PartsArePicked(c: Config, ts: seq<Task>)
    ensures Picks(ts, (t: Task) => ForThread(c, t), ForWorkers(c, ts))
    ensures Picks(ts, (t: Task) => !ForThread(c, t), ForInline(c, ts))
  {
    if ts == [] {
      PicksNone((t: Task) => ForThread(c, t));
      PicksNone((t: Task) => !ForThread(c, t));
    } else {
      var init, x := ts[..|ts| - 1], ts[|ts| - 1];
      PartsArePicked(c, init);
      assert ts == init + [x];
      PicksSnoc(init, x, (t: Task) => ForThread(c, t), ForWorkers(c, init));
      PicksSnoc(init, x, (t: Task) => !ForThread(c, t), ForInline(c, init));
      assert ForWorkers(c, init) + [] == ForWorkers(c, init) && ForInline(c, init) + [] == ForInline(c, init);
    }
  }

  /** The tasks at the front of the line that a pass may take. */
  function Taken(c: Config, s: State): seq<Task>
    requires s.active <= c.maxConcurrent
  {
    Line(s)[..Min(Min(c.concurrentTasks, c.maxConcurrent - s.active), |Line(s)|)]
  }

  /** `sent` joined the worker queue and `run` runs inline; the rest of the line waits on. */
  ghost predicate Routed(s: State, s': State, taken: nat, sent: seq<Task>, run: seq<Task>)
    requires taken <= |Line(s)|
  {
    && Line(s'.(pressure := s.pressure)) == Line(s)[taken..]
    && s'.pool.added == s.pool.added + sent && s'.inline == s.inline + run
    && s'.room.batches == s.room.batches && (s.pressure ==> s'.room.low == s.room.low)
  }

  /**
   * Of the tasks a pass takes, those for worker threads join the worker queue and the others run inline,
   * each in line order.
   */
  lemma PassRoutes(c: Config, s: State, failing: set<nat>) returns (sent: seq<Task>, run: seq<Task>)
    requires Core(c, s) && s.pending
    ensures Picks(Taken(c, s), (t: Task) => ForThread(c, t), sent)
    ensures Picks(Taken(c, s), (t: Task) => !ForThread(c, t), run)
    ensures Routed(s, Step(c, s, ProcessTick(failing)), |Taken(c, s)|, sent, run)
  {
    var s0 := s.(pending := false);
    var taken := Taken(c, s);
    sent, run := ForWorkers(c, taken), ForInline(c, taken);
    PartsArePicked(c, taken);
    UnflaggedCore(c, s);
    LineIsOffered(s0);
    PassTakesPrefix(c, s0, failing, |taken|);
    PrefixIsRouted(c, s0, ProcessQueue(c, s0, failing), |taken|, sent, run);
  }

  lemma LineIsOffered(s: State)
    ensures Line(s) == Offered(s.room, s.pressure)
  {
  }

  lemma PrefixIsRouted(c: Config, s: State, s': State, k: nat, sent: seq<Task>, run: seq<Task>)
    requires k <= |Offered(s.room, s.pressure)| && TookPrefix(c, s, k, s')
    requires sent == ForWorkers(c, Line(s)[..k]) && run == ForInline(c, Line(s)[..k])
    ensures Routed(s, s', k, sent, run)
  {
    LineIsOffered(s);
    LineIsOffered(s'.(pressure := s.pressure));
  }

  /** The type a worker item is counted under. */
  lemma ItemType(t: Task)
    ensures ItemFor(t).task == t
    ensures t.workload.Some? ==> TypeOf(ItemFor(t)) == t.workload.value
    ensures t.workload.None? ==> TypeOf(ItemFor(t)) == if t.hasCode then Custom else Unknown
  {
  }

  /** A pass starts only when asked for and with a slot free; it asks for another exactly if task and slot are left. */
  lemma PassWakes(c: Config, s: State, k: int)
    requires Core(c, s)
    requires k == Min(Min(c.concurrentTasks, c.maxConcurrent - s.active), |Line(s)|)
    ensures
      var s' := Step(c, s, ProcessTick({}));
      && (!s.pending ==> s' == s)
      && (s.pending && s.active >= c.maxConcurrent ==> s' == s.(pending := false))
      && (s.pending && s.active < c.maxConcurrent ==>
            && s' == s.(room := s'.room, pool := s'.pool, inline := s'.inline,
                        active := s.active + k, pending := s'.pending)
            && (s'.pending <==> Total(s'.room) > 0 && s.active + k < c.maxConcurrent))
  {
    var s0 := s.(pending := false);
    if s.pending && s.active < c.maxConcurrent {
      assert Line(s) == Offered(s.room, s.pressure) && k == PassSize(c, s0);
      assert Core(c, s0) by { UnflaggedCore(c, s); }
      CleanPass(c, s0, k, Take(c, s0, k));
    }
  }

  lemma UnflaggedCore(c: Config, s: State)
    requires Core(c, s)
    ensures Core(c, s.(pending := false))
  {
    var s' := s.(pending := false);
    forall t ensures PlacedTimes(s', t) == PlacedTimes(s, t) {}
  }

  lemma CleanPass(c: Config, s: State, k: nat, t: State)
    requires Core(c, s) && s.active < c.maxConcurrent && k == PassSize(c, s) && t == Take(c, s, k) && !s.pending
    ensures
      var s' := ProcessQueue(c, s, {});
      && s' == s.(room := s'.room, pool := s'.pool, inline := s'.inline,
                  active := s.active + k, pending := s'.pending)
      && (s'.pending <==> Total(s'.room) > 0 && s.active + k < c.maxConcurrent)
  {
    assert PoolInv(t.pool, c.limits) by { TakeKeeps(c, s, k); }
    CleanSend(c, t);
    CleanEnd(c, t, ForWorkers(c, Offered(s.room, s.pressure)[..k]) != []);
  }

  lemma CleanSend(c: Config, s: State)
    requires PoolInv(s.pool, c.limits)
    ensures SendWork(c, s, {}) == s.(pool := SendWork(c, s, {}).pool)
  {
    DispatchKeeps(s.pool, 0, |s.pool.busy|, c.limits, {});
  }

  lemma CleanEnd(c: Config, s: State, toWorkers: bool)
    requires SendWork(c, s, {}) == s.(pool := SendWork(c, s, {}).pool) && !s.pending
    ensures
      var s' := EndPass(c, s, toWorkers, {});
      && s' == s.(pool := s'.pool, pending := s'.pending)
      && (s'.pending <==> Total(s.room) > 0 && s.active < c.maxConcurrent)
  {
  }

  // ---------------------------------------------------------------- settling

  /** The caller of `t` is told the outcome, and nobody else. */
  ghost predicate Told(l: Log, l': Log, t: Task, ok: bool) {
    && l'.accepted == l.accepted && l'.timedOut == l.timedOut
    && l'.resolved == l.resolved + (if ok then [t] else [])
    && l'.rejected == l.rejected + if ok then [] else [t]
  }

  /** One more success or one more failure. */
  ghost predicate CountedAs(x: Stats, x': Stats, ok: bool) {
    && x'.processed == x.processed + (if ok then 1 else 0)
    && x'.rejected == x.rejected + (if ok then 0 else 1)
    && x'.timeout == x.timeout
  }

  lemma ToldOne(l: Log, t: Task, ok: bool)
    ensures Told(l, LogOne(l, t, ok), t, ok)
  {
    assert l.resolved + [] == l.resolved && l.rejected + [] == l.rejected;
  }

  /** An inline task's caller is told what happened, for the first time, and the statistics agree. */
  lemma InlineTold(c: Config, s: State, i: nat, ok: bool)
    requires Inv(c, s) && i < |s.inline|
    ensures
      var t := s.inline[i];
      var s' := Step(c, s, InlineSettled(i, ok));
      && SettledTimes(s.log, t) == 0
      && Told(s.log, s'.log, t, ok) && CountedAs(s.stats, s'.stats, ok)
      && s' == s.(inline := s.inline[..i] + s.inline[i + 1..], unreleased := s.unreleased + [t],
                  stats := s'.stats, log := s'.log)
  {
    var t := s.inline[i];
    ToldOne(s.log, t, ok);
    TimesSplice(s.inline, i, t);
    ExactlyOnePlace(c, s, t);
  }

  /** The later callback gives the slot back and asks for a pass. */
  lemma InlineReleases(c: Config, s: State, i: nat)
    requires Inv(c, s) && i < |s.unreleased|
    ensures Step(c, s, InlineReleased(i))
            == s.(unreleased := s.unreleased[..i] + s.unreleased[i + 1..], active := s.active - 1, pending := true)
  {
  }

  lemma RunningPlaced(s: State, g: nat, i: nat)
    requires g < |s.groups| && i < |s.groups[g].running|
    ensures PlacedTimes(s, s.groups[g].running[i]) >= 1
  {
    var t := s.groups[g].running[i];
    GroupsSplit(s.groups, g, s.groups[..g] + s.groups[g + 1..], t);
    TimesSplice(s.groups[g].running, i, t);
  }

  /** The caller of a batched task is told at once; the group counts it, the statistics wait. */
  lemma GroupTold(c: Config, s: State, g: nat, i: nat, ok: bool)
    requires Inv(c, s) && g < |s.groups| && i < |s.groups[g].running|
    ensures
      var x := s.groups[g];
      var t := x.running[i];
      var s' := Step(c, s, GroupSettled(g, i, ok));
      && SettledTimes(s.log, t) == 0
      && Told(s.log, s'.log, t, ok)
      && s' == s.(log := s'.log,
                  groups := s.groups[g := Group(x.running[..i] + x.running[i + 1..], x.count,
                                                x.processed + (if ok then 1 else 0), x.failed + (if ok then 0 else 1))])
  {
    var t := s.groups[g].running[i];
    ToldOne(s.log, t, ok);
    RunningPlaced(s, g, i);
    ExactlyOnePlace(c, s, t);
  }

  /** A finished group books its counts, gives its slots back and asks for a pass. */
  lemma GroupBooks(c: Config, s: State, g: nat)
    requires Inv(c, s) && g < |s.groups| && s.groups[g].running == [] && s.groups[g].count > 0
    ensures
      var x := s.groups[g];
      Step(c, s, GroupFinished(g))
      == s.(groups := s.groups[..g] + s.groups[g + 1..], active := s.active - x.count, pending := true,
            stats := Stats(s.stats.processed + x.processed, s.stats.rejected + x.failed, s.stats.timeout))
  {
    GroupWithin(s.groups, g);
  }

  /** The last task of a group settles and the group finishes: the statistics gain every outcome of the group. */
  lemma GroupLastTold(c: Config, s: State, g: nat, ok: bool)
    requires Inv(c, s) && g < |s.groups| && |s.groups[g].running| == 1
    ensures
      var x := s.groups[g];
      var s1 := Step(c, s, GroupSettled(g, 0, ok));
      var s2 := Step(c, s1, GroupFinished(g));
      && Told(s.log, s2.log, x.running[0], ok)
      && s2.stats.processed == s.stats.processed + x.processed + (if ok then 1 else 0)
      && s2.stats.rejected == s.stats.rejected + x.failed + (if ok then 0 else 1)
      && s2.stats.timeout == s.stats.timeout
      && s2.active == s.active - x.count
  {
    var s1 := Step(c, s, GroupSettled(g, 0, ok));
    GroupTold(c, s, g, 0, ok);
    assert Inv(c, s1) by { GroupSettledKeeps(c, s, g, 0, ok); }
    assert s1.groups[g].running == [] && s1.groups[g].count > 0;
    GroupBooks(c, s1, g);
  }

  /** `t` is in a queue or in a batch. */
  ghost predicate InRoom(r: Room, t: Task) {
    t in r.high || t in r.normal || t in r.low || exists e :: e in r.batches && t in e.batch.tasks
  }

  lemma InRoomWaits(r: Room, t: Task)
    ensures InRoom(r, t) <==> Waiting(r, t)
  {
    var j := Holder(r.batches, t);
    if j < |r.batches| { assert r.batches[j] in r.batches; }
  }

  /** `t`, and nothing else, is gone from the room. */
  ghost predicate TakenOut(r: Room, r': Room, t: Task) {
    !InRoom(r', t) && forall x :: RoomTimes(r', x) == RoomTimes(r, x) - if x == t then 1 else 0
  }

  /** A queue timer rejects its task as timed out, once, exactly if it still waits, and takes it out of its place. */
  lemma TimerTells(c: Config, s: State, t: Task)
    requires Inv(c, s)
    ensures
      var s' := Step(c, s, TimerFired(t));
      if InRoom(s.room, t) then
        && s' == s.(room := s'.room,
                    stats := Stats(s.stats.processed, s.stats.rejected, s.stats.timeout + 1),
                    log := Log(s.log.accepted, s.log.resolved, s.log.rejected, s.log.timedOut + [t]))
        && TakenOut(s.room, s'.room, t)
      else s' == s
  {
    InRoomWaits(s.room, t);
    TimerStep(c, s, t);
    if Waiting(s.room, t) { TimerTakesOut(c, s, t, Remove(s.room, t)); }
  }

  lemma TimerStep(c: Config, s: State, t: Task)
    ensures
      Step(c, s, TimerFired(t)) ==
      if Waiting(s.room, t) then
        s.(room := Remove(s.room, t), stats := Stats(s.stats.processed, s.stats.rejected, s.stats.timeout + 1),
           log := Log(s.log.accepted, s.log.resolved, s.log.rejected, s.log.timedOut + [t]))
      else s
  {
  }

  lemma TimerTakesOut(c: Config, s: State, t: Task, r': Room)
    requires Inv(c, s) && Waiting(s.room, t) && r' == Remove(s.room, t)
    ensures TakenOut(s.room, r', t)
  {
    forall x ensures RoomTimes(r', x) == RoomTimes(s.room, x) - if x == t then 1 else 0 {
      RemoveTimes(s.room, t, s.lastId, x);
    }
    OnceInRoom(c, s, t, r');
  }

  lemma {:induction false} BatchHolds(bs: seq<Entry>, t: Task)
    ensures BatchTimes(bs, t) > 0 <==> exists e :: e in bs && t in e.batch.tasks
  {
    if bs != [] {
      BatchHolds(bs[1..], t);
      TimesPositive(bs[0].batch.tasks, t);
      assert bs[0] in bs && forall e :: e in bs <==> e == bs[0] || e in bs[1..];
    }
  }

  lemma RoomHolds(r: Room, t: Task)
    ensures RoomTimes(r, t) > 0 <==> InRoom(r, t)
  {
    TimesPositive(r.high, t);
    TimesPositive(r.normal, t);
    TimesPositive(r.low, t);
    BatchHolds(r.batches, t);
  }

  lemma OnceInRoom(c: Config, s: State, t: Task, r': Room)
    requires Inv(c, s) && RoomTimes(r', t) == RoomTimes(s.room, t) - 1
    ensures !InRoom(r', t)
  {
    ExactlyOnePlace(c, s, t);
    RoomHolds(r', t);
  }

  /** A worker failure rejects the task the worker was sent; then only sends that fail are rejected. */
  lemma FailureTells(c: Config, s: State, i: nat, failing: set<nat>)
    requires Inv(c, s) && i in s.pool.jobs
    ensures
      var t := s.pool.jobs[i].task;
      var s' := Step(c, s, Failure(i, failing));
      && s'.log.resolved == s.log.resolved && s'.log.timedOut == s.log.timedOut
      && s'.log.rejected == s.log.rejected + [t] + Dispatch(Release(s.pool, i), c.limits, failing).failed
  {
    ResultLog(c, s, i, false, failing);
    FailureLog(c, s, i, failing, WorkerResult(c, s, i, false, failing));
    assert s.log.resolved + [] == s.log.resolved;
  }

  lemma FailureLog(c: Config, s: State, i: nat, failing: set<nat>, s1: State)
    requires Inv(c, s) && i in s.pool.jobs && s1 == WorkerResult(c, s, i, false, failing)
    ensures Step(c, s, Failure(i, failing)).log == s1.log
  {
  }

  // ---------------------------------------------------------------- small events

  /** The periodic tick asks for a pass exactly if something waits. */
  lemma IntervalAsks(c: Config, s: State)
    ensures Step(c, s, IntervalTick) == s.(pending := s.pending || Total(s.room) > 0)
  {
  }

  /** A started scheduler is idle, has the restored numbers and gives out the next id. */
  lemma StartsIdle(c: Config)
    ensures
      var s := Initial(c);
      && Line(s) == [] && s.room.batches == [] && s.active == 0 && !s.pending && !s.processing && !s.pressure
      && s.inline == [] && s.unreleased == [] && s.groups == []
      && s.pool.queue == [] && s.pool.jobs == map[] && s.pool.dropped == 0 && |s.pool.busy| == c.workers
      && s.stats == c.restored && s.lastId == c.restoredId && s.refused == 0 && s.log == Log([], [], [], [])
  {
  }

  /** On clean runs an idle worker and a waiting item coexist only if the item's type has its limit assigned. */
  lemma IdleMeansAtLimit(c: Config, s: State, i: nat, w: WorkItem)
    requires Inv(c, s) && Conserving(c, s) && i < |s.pool.busy| && !s.pool.busy[i] && w in s.pool.queue
    ensures w.task.workload.Some?
    ensures s.pool.active.At(w.task.workload.value) == c.limits.At(w.task.workload.value)
            == CountAssigned(s.pool.jobs, |s.pool.busy|, w.task.workload.value)
  {
    assert Typed(w) && !HasRoom(w, s.pool.active, c.limits);
  }
}
