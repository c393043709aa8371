/**
 * The in-process scheduler as one state and one function per event
 * (queue.service.ts, queue-processor.service.ts, batch.service.ts, memory.service.ts).
 * Every event runs to completion on one thread; an event whose guard is off changes nothing.
 */
module SchedulerSpec {
  import opened Tasks
  import opened Queues
  import opened WorkerPool

  datatype Stats = Stats(processed: nat, rejected: nat, timeout: nat)

  /** Settings, plus the statistics and the id counter restored from a snapshot. */
  datatype Config = Config(
    concurrentTasks: nat, maxConcurrent: nat, overflowThreshold: nat, taskTimeoutMs: nat,
    workers: nat, limits: PerType, useWorkers: bool, restored: Stats, restoredId: nat)

  ghost predicate ValidConfig(c: Config) {
    && c.concurrentTasks > 0 && c.maxConcurrent > 0 && c.overflowThreshold > 0 && c.workers > 0
    && forall k :: k != Unknown ==> 1 <= c.limits.At(k) <= c.workers
  }

  /** clampConcurrencyLimit */
  function ClampLimit(limit: int, workers: nat): (r: nat)
    requires workers >= 1
    ensures 1 <= r <= workers
    ensures 1 <= limit <= workers ==> r == limit
    ensures limit > workers ==> r == workers
    ensures limit < 1 ==> r == 1
  {
    Max(1, Min(limit, workers))
  }

  /** The three limits the router works with, from the configured numbers. */
  function LimitsFor(cpu: int, memory: int, custom: int, workers: nat): PerType
    requires workers >= 1
  {
    PerType(ClampLimit(cpu, workers), ClampLimit(memory, workers), ClampLimit(custom, workers))
  }

  /** Whatever limits are configured, the router's are usable: no type is shut out or exceeds the workers. */
  lemma ClampedConfig(c: Config, cpu: int, memory: int, custom: int)
    requires c.concurrentTasks > 0 && c.maxConcurrent > 0 && c.overflowThreshold > 0 && c.workers > 0
    requires c.limits == LimitsFor(cpu, memory, custom, c.workers)
    ensures ValidConfig(c)
    ensures forall k :: k != Unknown && 1 <= PerLimit(cpu, memory, custom, k) <= c.workers ==>
              c.limits.At(k) == PerLimit(cpu, memory, custom, k)
  {
    assert c.limits.At(Cpu) == ClampLimit(cpu, c.workers) && c.limits.At(Memory) == ClampLimit(memory, c.workers)
           && c.limits.At(Custom) == ClampLimit(custom, c.workers);
  }

  /** The configured number for a type. */
  function PerLimit(cpu: int, memory: int, custom: int, k: Workload): int {
    match k
    case Cpu => cpu
    case Memory => memory
    case Custom => custom
    case Unknown => 0
  }

  /** One dispatched part of a batch: settles task by task, gives its slots back as a whole. */
  datatype Group = Group(running: seq<Task>, count: nat, processed: nat, failed: nat)

  /** Histories: tasks accepted, and calls of resolve and reject, split by the statistic they count under. */
  datatype Log = Log(accepted: seq<Task>, resolved: seq<Task>, rejected: seq<Task>, timedOut: seq<Task>)

  datatype State = State(
    room: Room, lastId: nat, active: int, pending: bool, processing: bool, pressure: bool,
    inline: seq<Task>, unreleased: seq<Task>, groups: seq<Group>, pool: Pool,
    stats: Stats, refused: nat, log: Log)

  function Initial(c: Config): State {
    State(Room([], [], [], []), c.restoredId, 0, false, false, false, [], [], [],
          Pool([], seq(c.workers, _ => false), map[], PerType(0, 0, 0), 0, [], []),
          c.restored, 0, Log([], [], [], []))
  }

  // ---------------------------------------------------------------- building blocks

  /** requestProcessQueue */
  function Wake(s: State): State { s.(pending := true) }

  /** decrementActiveRequests, `n` times */
  function Less(active: int, n: nat): int { Max(0, active - n) }

  /** A settled task counts as processed or rejected. */
  function CountOne(stats: Stats, ok: bool): Stats {
    if ok then stats.(processed := stats.processed + 1) else stats.(rejected := stats.rejected + 1)
  }

  function LogOne(log: Log, t: Task, ok: bool): Log {
    if ok then log.(resolved := log.resolved + [t]) else log.(rejected := log.rejected + [t])
  }

  /** A worker task that could not be sent is rejected and gives its slot back. */
  function FailTasks(s: State, failed: seq<Task>): State {
    if failed == [] then s
    else s.(active := Less(s.active, |failed|), pending := true,
            stats := s.stats.(rejected := s.stats.rejected + |failed|),
            log := s.log.(rejected := s.log.rejected + failed))
  }

  /** processWorkerTasks with the scheduler's failure callback. */
  function SendWork(c: Config, s: State, failing: set<nat>): State {
    if !c.useWorkers || s.pool.queue == [] then s
    else
      var r := Dispatch(s.pool, c.limits, failing);
      FailTasks(s.(pool := r.pool), r.failed)
  }

  // ---------------------------------------------------------------- enqueue

  datatype Request = Request(priority: int, category: string, size: int, workload: Option<Workload>,
                             hasCode: bool, batch: bool)

  datatype Verdict = BadOption | Overloaded | Full | Accepted

  /** Which way enqueue goes; a bad option throws before anything changes. */
  function Admission(c: Config, s: State, o: Request): Verdict {
    if o.size <= 0 || o.category == "" then BadOption
    else if s.pressure && o.priority < 0 then Overloaded
    else if Total(s.room) >= c.overflowThreshold then Full
    else Accepted
  }

  function NewTask(s: State, o: Request, now: int): Task {
    Task(s.lastId + 1, o.priority, o.category, Max(0, o.size), o.workload, o.hasCode, now)
  }

  /** A refusal is counted, and nothing else changes. */
  function Refused(s: State): State {
    s.(refused := s.refused + 1, stats := s.stats.(rejected := s.stats.rejected + 1))
  }

  function Enqueue(c: Config, s: State, o: Request, now: int): State {
    match Admission(c, s, o)
    case BadOption => s
    case Overloaded => Refused(s)
    case Full => Refused(s)
    case Accepted =>
      var t := NewTask(s, o, now);
      Admit(s, t, Place(s.room, t, o.batch, now))
  }

  function Admit(s: State, t: Task, room: Room): State {
    s.(lastId := s.lastId + 1, room := room, pending := true, log := s.log.(accepted := s.log.accepted + [t]))
  }

  // ---------------------------------------------------------------- the process pass

  /** isWorkerEligibleTask */
  predicate Eligible(c: Config, t: Task) {
    c.useWorkers && t.priority >= 0 && t.workload.Some? && t.workload.value != Unknown
  }

  function ForWorkers(c: Config, ts: seq<Task>): seq<Task> {
    if ts == [] then []
    else ForWorkers(c, ts[..|ts| - 1]) + if Eligible(c, ts[|ts| - 1]) then [ts[|ts| - 1]] else []
  }

  function ForInline(c: Config, ts: seq<Task>): seq<Task> {
    if ts == [] then []
    else ForInline(c, ts[..|ts| - 1]) + if Eligible(c, ts[|ts| - 1]) then [] else [ts[|ts| - 1]]
  }

  /** How many tasks one pass takes. */
  function PassSize(c: Config, s: State): nat {
    Max(0, Min(Min(c.concurrentTasks, c.maxConcurrent - s.active), |Offered(s.room, s.pressure)|))
  }

  /** The first `k` offered tasks take a slot each and go to the worker queue or run inline. */
  function Take(c: Config, s: State, k: nat): State
    requires k <= |Offered(s.room, s.pressure)|
  {
    var taken := Offered(s.room, s.pressure)[..k];
    s.(room := Shifted(s.room, s.pressure, k), active := s.active + k,
       inline := s.inline + ForInline(c, taken),
       pool := AddAll(s.pool, ForWorkers(c, taken)))
  }

  /** The end of a pass: ask for another one if something still waits and a slot is free. */
  function WakeIfNeeded(c: Config, s: State): State {
    if s.active < c.maxConcurrent && Total(s.room) > 0 then Wake(s) else s
  }

  function ProcessQueue(c: Config, s: State, failing: set<nat>): State {
    if s.processing || s.active >= c.maxConcurrent then s
    else
      var k := PassSize(c, s);
      EndPass(c, Take(c, s, k), ForWorkers(c, Offered(s.room, s.pressure)[..k]) != [], failing)
  }

  function EndPass(c: Config, s: State, toWorkers: bool, failing: set<nat>): State {
    WakeIfNeeded(c, if toWorkers then SendWork(c, s, failing) else s)
  }

  // ---------------------------------------------------------------- inline runs

  /** An inline promise settles; its slot is released in a later microtask. */
  function InlineSettle(s: State, i: nat, ok: bool): State {
    if i >= |s.inline| then s
    else
      s.(inline := Splice(s.inline, i), unreleased := s.unreleased + [s.inline[i]],
         stats := CountOne(s.stats, ok), log := LogOne(s.log, s.inline[i], ok))
  }

  function InlineRelease(s: State, i: nat): State {
    if i >= |s.unreleased| then s
    else s.(unreleased := Splice(s.unreleased, i), active := Less(s.active, 1), pending := true)
  }

  // ---------------------------------------------------------------- batches

  /** BatchService.processBatch up to its synchronous onComplete call. */
  function StartBatch(c: Config, s: State, category: string, now: int): State {
    var bs := s.room.batches;
    var j := Find(bs, category);
    if j == |bs| then s
    else if bs[j].batch.tasks == [] then s.(room := s.room.(batches := Delete(bs, category)))
    else if c.maxConcurrent - s.active <= 0 then s
    else
      var k := Min(|bs[j].batch.tasks|, c.maxConcurrent - s.active);
      OpenGroup(s, TakeFromBatch(bs, j, k, now), Group(bs[j].batch.tasks[..k], k, 0, 0))
  }

  function OpenGroup(s: State, bs: seq<Entry>, g: Group): State {
    s.(room := s.room.(batches := bs), groups := s.groups + [g], active := Max(0, s.active + g.count))
  }

  function Tally(g: Group, i: nat, ok: bool): Group
    requires i < |g.running|
  {
    Group(Splice(g.running, i), g.count, g.processed + (if ok then 1 else 0), g.failed + if ok then 0 else 1)
  }

  /** One task of an open group settles; the statistics wait for the group. */
  function GroupSettle(s: State, g: nat, i: nat, ok: bool): State {
    if g >= |s.groups| || i >= |s.groups[g].running| then s
    else
      s.(groups := s.groups[g := Tally(s.groups[g], i, ok)], log := LogOne(s.log, s.groups[g].running[i], ok))
  }

  /** Promise.all(...).finally: all tasks of the group have settled. */
  function GroupFinish(s: State, g: nat): State {
    if g >= |s.groups| || s.groups[g].running != [] then s
    else
      var gr := s.groups[g];
      s.(groups := s.groups[..g] + s.groups[g + 1..],
         active := Less(s.active, gr.count),
         pending := s.pending || gr.count > 0,
         stats := s.stats.(processed := s.stats.processed + gr.processed,
                           rejected := s.stats.rejected + gr.failed))
  }

  datatype Trigger = Aged | Heavy

  predicate Fires(why: Trigger, b: Batch, now: int) {
    match why
    case Aged => now - b.createdAt >= BATCH_MAX_AGE_MS
    case Heavy => b.totalSize > FORCE_REDUCE_BATCH_SIZE_THRESHOLD
  }

  function Keys(bs: seq<Entry>): seq<string> {
    seq(|bs|, i requires 0 <= i < |bs| => bs[i].key)
  }

  /** Visit the given keys in order and start the batches that fire. */
  function StartFiring(c: Config, s: State, keys: seq<string>, why: Trigger, now: int): State
    decreases keys
  {
    if keys == [] then s
    else
      var j := Find(s.room.batches, keys[0]);
      var s' := if j < |s.room.batches| && Fires(why, s.room.batches[j].batch, now)
                then StartBatch(c, s, keys[0], now) else s;
      StartFiring(c, s', keys[1..], why, now)
  }

  // ---------------------------------------------------------------- timeouts and memory pressure

  /** The per-task queue timer of wrapTaskWithQueueTimeout. */
  function QueueTimeout(s: State, t: Task): State {
    if !Waiting(s.room, t) then s
    else s.(room := Remove(s.room, t), stats := s.stats.(timeout := s.stats.timeout + 1),
            log := s.log.(timedOut := s.log.timedOut + [t]))
  }

  function Cleanup(c: Config, s: State, now: int): State {
    var out := CleanedOut(s.room, now, c.taskTimeoutMs);
    s.(room := Cleaned(s.room, now, c.taskTimeoutMs),
       stats := s.stats.(timeout := s.stats.timeout + |out|),
       log := s.log.(timedOut := s.log.timedOut + out))
  }

  /** The low-priority half of forceReduceQueues. */
  function DropNewest(s: State): State {
    var k := Survivors(s.room.low);
    var out := TailFirst(s.room.low[k..]);
    s.(room := s.room.(low := s.room.low[..k]),
       stats := s.stats.(rejected := s.stats.rejected + |out|),
       log := s.log.(rejected := s.log.rejected + out))
  }

  function ForceReduce(c: Config, s: State, now: int): State {
    var s' := DropNewest(s);
    StartFiring(c, s', Keys(s'.room.batches), Heavy, now)
  }

  function MemoryCheck(c: Config, s: State, usage: real, gc: bool, now: int): State {
    var s1 := s.(pressure := usage > 0.75);
    if s1.pressure then
      var s2 := Cleanup(c, s1, now);
      if usage > 0.9 && gc then ForceReduce(c, s2, now) else s2
    else if s1.room.low != [] then Wake(s1) else s1
  }

  // ---------------------------------------------------------------- workers

  /** The first half of handleWorkerResult: settle the task assigned to the worker, if any. */
  function Settle(s: State, i: nat, ok: bool): State
    requires i < |s.pool.busy|
  {
    if i !in s.pool.jobs then s.(pool := Release(s.pool, i))
    else
      s.(pool := Release(s.pool, i), active := Less(s.active, 1), pending := true,
         stats := CountOne(s.stats, ok), log := LogOne(s.log, s.pool.jobs[i].task, ok))
  }

  function WorkerResult(c: Config, s: State, i: nat, ok: bool, failing: set<nat>): State {
    if i >= |s.pool.busy| then s else SendWork(c, Settle(s, i, ok), failing)
  }

  /** An `initialized` message clears the busy flag. */
  function WorkerReady(s: State, i: nat): State {
    if i >= |s.pool.busy| then s else s.(pool := s.pool.(busy := s.pool.busy[i := false]))
  }

  /** handleWorkerFailure: fail the assigned task (which dispatches again), clear the flag, replace the worker. */
  function WorkerFailure(c: Config, s: State, i: nat, failing: set<nat>): State {
    if i >= |s.pool.busy| then s
    else WorkerReady(if i in s.pool.jobs then WorkerResult(c, s, i, false, failing) else s, i)
  }

  // ---------------------------------------------------------------- events and runs

  datatype Event =
    | EnqueueCall(o: Request, now: int)
    | ProcessTick(failing: set<nat>)
    | IntervalTick
    | InlineSettled(i: nat, ok: bool)
    | InlineReleased(i: nat)
    | BatchTick(category: string, now: int)
    | AgingTick(now: int)
    | GroupSettled(g: nat, i: nat, ok: bool)
    | GroupFinished(g: nat)
    | TimerFired(t: Task)
    | MemoryTick(usage: real, gc: bool, now: int)
    | ResultMessage(i: nat, ok: bool, failing: set<nat>)
    | ReadyMessage(i: nat)
    | Failure(i: nat, failing: set<nat>)

  function Step(c: Config, s: State, e: Event): State {
    match e
    case EnqueueCall(o, now) => Enqueue(c, s, o, now)
    case ProcessTick(failing) => if s.pending then ProcessQueue(c, s.(pending := false), failing) else s
    case IntervalTick => if Total(s.room) > 0 then Wake(s) else s
    case InlineSettled(i, ok) => InlineSettle(s, i, ok)
    case InlineReleased(i) => InlineRelease(s, i)
    case BatchTick(category, now) => StartBatch(c, s, category, now)
    case AgingTick(now) => StartFiring(c, s, Keys(s.room.batches), Aged, now)
    case GroupSettled(g, i, ok) => GroupSettle(s, g, i, ok)
    case GroupFinished(g) => GroupFinish(s, g)
    case TimerFired(t) => QueueTimeout(s, t)
    case MemoryTick(usage, gc, now) => MemoryCheck(c, s, usage, gc, now)
    case ResultMessage(i, ok, failing) => WorkerResult(c, s, i, ok, failing)
    case ReadyMessage(i) => WorkerReady(s, i)
    case Failure(i, failing) => WorkerFailure(c, s, i, failing)
  }

  function Run(c: Config, s: State, es: seq<Event>): State {
    if es == [] then s else Step(c, Run(c, s, es[..|es| - 1]), es[|es| - 1])
  }

  lemma RunOneMore(c: Config, s: State, es: seq<Event>, e: Event)
    ensures Run(c, s, es + [e]) == Step(c, Run(c, s, es), e)
  {
    assert (es + [e])[..|es|] == es;
  }
}
