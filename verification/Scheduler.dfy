/** The scheduler in its own, imperative form; every method is proved against SchedulerSpec. */
module Scheduler {
  import opened Tasks
  import opened Queues
  import opened WorkerPool
  import opened SchedulerSpec

  // ---------------------------------------------------------------- facts about the specification

  lemma FailTasksTwice(s: State, a: seq<Task>, b: seq<Task>)
    ensures FailTasks(FailTasks(s, a), b) == FailTasks(s, a + b)
  {
    if a == [] {
      assert a + b == b;
    } else if b == [] {
      assert a + b == a;
    } else {
      assert s.log.rejected + a + b == s.log.rejected + (a + b);
    }
  }

  /** What is left to do for workers `i` onwards, applied to a state. */
  ghost function FinishFrom(c: Config, s: State, i: nat, failing: set<nat>): State
    requires i <= |s.pool.busy|
  {
    var r := DispatchRange(s.pool, i, |s.pool.busy|, c.limits, failing);
    FailTasks(s.(pool := r.pool), r.failed)
  }

  lemma OfferEmpty(p: Pool, i: nat, limits: PerType, failing: set<nat>)
    requires p.queue == [] && i < |p.busy|
    ensures Offer(p, i, limits, failing) == Sent(p, [])
  {
    assert TasksOf([]) == [];
  }

  lemma {:induction false} RangeEmpty(p: Pool, i: nat, limits: PerType, failing: set<nat>)
    requires p.queue == [] && i <= |p.busy|
    ensures DispatchRange(p, i, |p.busy|, limits, failing) == Sent(p, [])
    decreases |p.busy| - i
  {
    if i < |p.busy| {
      OfferEmpty(p, i, limits, failing);
      RangeEmpty(p, i + 1, limits, failing);
    }
  }

  lemma ShiftedNext(r: Room, pressure: bool, k: nat, r': Room)
    requires k < |Offered(r, pressure)| && r' == Shifted(r, pressure, k)
    ensures Offered(r', pressure) != [] && Shifted(r, pressure, k + 1) == Shifted(r', pressure, 1)
  {
  }

  lemma PartsNext(c: Config, line: seq<Task>, k: nat)
    requires k < |line|
    ensures ForWorkers(c, line[..k + 1]) == ForWorkers(c, line[..k]) + if Eligible(c, line[k]) then [line[k]] else []
    ensures ForInline(c, line[..k + 1]) == ForInline(c, line[..k]) + if Eligible(c, line[k]) then [] else [line[k]]
  {
    assert line[..k + 1][..k] == line[..k];
  }

  lemma AddAllTwice(p: Pool, a: seq<Task>, b: seq<Task>)
    ensures AddAll(AddAll(p, a), b) == AddAll(p, a + b)
  {
    assert p.queue + ItemsFor(a) + ItemsFor(b) == p.queue + ItemsFor(a + b);
    assert p.added + a + b == p.added + (a + b);
  }

  /** One more task taken from the line `x` leads. */
  function TakeOne(c: Config, s: State, x: Task): State
    requires Offered(s.room, s.pressure) != []
  {
    var s' := s.(room := Shifted(s.room, s.pressure, 1), active := s.active + 1);
    if Eligible(c, x) then s'.(pool := AddAll(s.pool, [x])) else s'.(inline := s.inline + [x])
  }

  lemma TakeNextInline(c: Config, inline: seq<Task>, line: seq<Task>, k: nat)
    requires k < |line|
    ensures inline + ForInline(c, line[..k + 1])
            == inline + ForInline(c, line[..k]) + if Eligible(c, line[k]) then [] else [line[k]]
  {
    PartsNext(c, line, k);
  }

  lemma TakeNextPool(c: Config, p: Pool, line: seq<Task>, k: nat)
    requires k < |line|
    ensures
      var q := AddAll(p, ForWorkers(c, line[..k]));
      AddAll(p, ForWorkers(c, line[..k + 1])) == if Eligible(c, line[k]) then AddAll(q, [line[k]]) else q
  {
    PartsNext(c, line, k);
    AddAllTwice(p, ForWorkers(c, line[..k]), [line[k]]);
    assert ForWorkers(c, line[..k]) + [] == ForWorkers(c, line[..k]);
  }

  /** Taking one more task is taking the first task of what is left. */
  lemma TakeNext(c: Config, s: State, k: nat, t: State)
    requires k < |Offered(s.room, s.pressure)| && t == Take(c, s, k)
    ensures Offered(t.room, s.pressure) != [] && t.pressure == s.pressure
    ensures Offered(t.room, s.pressure)[0] == Offered(s.room, s.pressure)[k]
    ensures Take(c, s, k + 1) == TakeOne(c, t, Offered(s.room, s.pressure)[k])
  {
    var line := Offered(s.room, s.pressure);
    ShiftedNext(s.room, s.pressure, k, t.room);
    ShiftedRest(s.room, s.pressure, k);
    assert Offered(t.room, s.pressure) == line[k..];
    TakeNextInline(c, s.inline, line, k);
    TakeNextPool(c, s.pool, line, k);
  }

  /** One worker's turn, with the failure callbacks. */
  ghost function Offered1(c: Config, s: State, i: nat, failing: set<nat>): State
    requires i < |s.pool.busy|
  {
    var o := Offer(s.pool, i, c.limits, failing);
    FailTasks(s.(pool := o.pool), o.failed)
  }

  lemma FinishStep(c: Config, s: State, i: nat, failing: set<nat>)
    requires i < |s.pool.busy|
    ensures |Offered1(c, s, i, failing).pool.busy| == |s.pool.busy|
    ensures FinishFrom(c, s, i, failing) == FinishFrom(c, Offered1(c, s, i, failing), i + 1, failing)
    ensures s.pool.busy[i] ==> Offered1(c, s, i, failing) == s
  {
    var o := Offer(s.pool, i, c.limits, failing);
    var r := DispatchRange(o.pool, i + 1, |s.pool.busy|, c.limits, failing);
    FailTasksTwice(s.(pool := r.pool), o.failed, r.failed);
  }

  ghost function SentTo(s: State, i: nat, w: WorkItem, failing: set<nat>): State
    requires i < |s.pool.busy|
  {
    var p := s.pool.(picked := s.pool.picked + [w.task]);
    if i in failing then FailTasks(s.(pool := p.(jobs := p.jobs - {i})), [w.task])
    else s.(pool := Assign(p, i, w))
  }

  lemma OfferParts(c: Config, s: State, i: nat, failing: set<nat>)
    requires i < |s.pool.busy| && !s.pool.busy[i]
    ensures
      var d := Dequeue(s.pool.queue, s.pool.active, c.limits);
      Offered1(c, s, i, failing)
      == if d.item.None? then Dequeued(s, d) else SentTo(Dequeued(s, d), i, d.item.value, failing)
  {
    var d := Dequeue(s.pool.queue, s.pool.active, c.limits);
    if d.item.Some? && i in failing {
      var o := Offer(s.pool, i, c.limits, failing);
      FailTasksTwice(s.(pool := o.pool), TasksOf(d.dropped), [d.item.value.task]);
    }
  }

  /** The state after a dequeue whose dropped items were rejected. */
  ghost function Dequeued(s: State, d: Pick): State {
    FailTasks(s.(pool := s.pool.(queue := d.rest, dropped := s.pool.dropped + |d.dropped|)), TasksOf(d.dropped))
  }

  /** A dequeue that already skipped `kept` and dropped `out`. */
  ghost function Resumed(kept: seq<WorkItem>, out: seq<WorkItem>, d: Pick): Pick {
    Pick(d.item, kept + d.rest, out + d.dropped)
  }

  /** One turn of the dequeue loop. */
  lemma DequeueAt(q: seq<WorkItem>, i: nat, out: seq<WorkItem>, active: PerType, limits: PerType)
    requires i < |q|
    ensures
      var d := Dequeue(q[i..], active, limits);
      var k := TypeOf(q[i]);
      var gap := q[..i] + q[i + 1..];
      && (k == Unknown ==>
            Resumed(q[..i], out, d) == Resumed(gap[..i], out + [q[i]], Dequeue(gap[i..], active, limits)))
      && (k != Unknown && active.At(k) >= limits.At(k) ==>
            Resumed(q[..i], out, d) == Resumed(q[..i + 1], out, Dequeue(q[i + 1..], active, limits)))
      && (k != Unknown && active.At(k) < limits.At(k) ==>
            Resumed(q[..i], out, d) == Pick(Some(q[i].(kind := Some(k))), gap, out))
  {
    var rest := q[i + 1..];
    assert q[i..][0] == q[i] && q[i..][1..] == rest;
    var gap := q[..i] + rest;
    assert gap[..i] == q[..i] && gap[i..] == rest;
    var r := Dequeue(rest, active, limits);
    assert out + ([q[i]] + r.dropped) == out + [q[i]] + r.dropped;
    assert q[..i] + ([q[i]] + r.rest) == q[..i + 1] + r.rest;
    assert out + [] == out;
  }

  lemma FailedMore(s: State, out: seq<WorkItem>, w: WorkItem)
    ensures FailTasks(FailTasks(s, TasksOf(out)), [w.task]) == FailTasks(s, TasksOf(out + [w]))
  {
    FailTasksTwice(s, TasksOf(out), [w.task]);
    assert TasksOf(out + [w]) == TasksOf(out) + [w.task];
  }

  lemma CleanedOutOrder(r: Room, now: int, timeoutMs: nat, before: seq<Task>)
    ensures before + Expired(r.high, now, timeoutMs) + Expired(r.normal, now, timeoutMs)
            + Expired(r.low, now, timeoutMs) + ExpiredBatches(r.batches, now, timeoutMs)
            == before + CleanedOut(r, now, timeoutMs)
  {
  }

  /** The backward sweep has treated everything from `i` on. */
  ghost predicate Swept(ts: seq<Task>, i: nat, kept: seq<Task>, out: seq<Task>, now: int, timeoutMs: nat)
    requires i <= |ts| && i <= |kept|
  {
    && kept[..i] == ts[..i]
    && Young(ts, now, timeoutMs) == Young(ts[..i], now, timeoutMs) + kept[i..]
    && Expired(ts, now, timeoutMs) == out + Expired(ts[..i], now, timeoutMs)
  }

  lemma SweepStart(ts: seq<Task>, now: int, timeoutMs: nat)
    ensures Swept(ts, |ts|, ts, [], now, timeoutMs)
  {
    assert ts[..|ts|] == ts && ts[|ts|..] == [];
  }

  lemma SweepOne(ts: seq<Task>, i: nat, kept: seq<Task>, out: seq<Task>, now: int, timeoutMs: nat)
    requires i < |ts| && i < |kept| && Swept(ts, i + 1, kept, out, now, timeoutMs)
    ensures
      var t := kept[i];
      if TooOld(t.timestamp, now, timeoutMs)
      then Swept(ts, i, kept[..i] + kept[i + 1..], out + [t], now, timeoutMs)
      else Swept(ts, i, kept, out, now, timeoutMs)
  {
    var t := kept[i];
    assert kept[..i + 1][i] == ts[..i + 1][i] && t == ts[i];
    assert kept[..i] == kept[..i + 1][..i] == ts[..i + 1][..i] == ts[..i];
    var y, e := Young(ts[..i], now, timeoutMs), Expired(ts[..i], now, timeoutMs);
    if TooOld(t.timestamp, now, timeoutMs) {
      var gap := kept[..i] + kept[i + 1..];
      assert gap[..i] == ts[..i] && gap[i..] == kept[i + 1..];
      assert out + ([t] + e) == out + [t] + e;
      assert y + [] == y;
    } else {
      assert y + [t] + kept[i + 1..] == y + kept[i..];
      assert [] + e == e;
    }
  }

  lemma SweepEnd(ts: seq<Task>, kept: seq<Task>, out: seq<Task>, now: int, timeoutMs: nat)
    requires Swept(ts, 0, kept, out, now, timeoutMs)
    ensures kept == Young(ts, now, timeoutMs) && out == Expired(ts, now, timeoutMs)
  {
    assert ts[..0] == [] && kept[0..] == kept;
  }

  lemma DropNewestParts(s: State, remove: nat)
    requires remove == |s.room.low| / 2
    ensures
      var k := |s.room.low| - remove;
      DropNewest(s) == s.(room := s.room.(low := s.room.low[..k]),
                          stats := s.stats.(rejected := s.stats.rejected + remove),
                          log := s.log.(rejected := s.log.rejected + TailFirst(s.room.low[k..])))
  {
    TailFirstTimes(s.room.low[|s.room.low| - remove..], Task(0, 0, "", 0, None, false, 0));
  }

  lemma CleanupParts(c: Config, s: State, now: int, n: nat)
    requires n == |CleanedOut(s.room, now, c.taskTimeoutMs)|
    ensures
      var r := s.room;
      Cleanup(c, s, now) ==
      s.(room := Room(Young(r.high, now, c.taskTimeoutMs), Young(r.normal, now, c.taskTimeoutMs),
                      Young(r.low, now, c.taskTimeoutMs), YoungBatches(r.batches, now, c.taskTimeoutMs)),
         stats := s.stats.(timeout := s.stats.timeout + n),
         log := s.log.(timedOut := s.log.timedOut + Expired(r.high, now, c.taskTimeoutMs)
                                   + Expired(r.normal, now, c.taskTimeoutMs) + Expired(r.low, now, c.taskTimeoutMs)
                                   + ExpiredBatches(r.batches, now, c.taskTimeoutMs)))
  {
    CleanedOutOrder(s.room, now, c.taskTimeoutMs, s.log.timedOut);
  }

  /** The queue a pass looks at in its `which`-th turn. */
  function Nth(r: Room, which: nat): seq<Task> {
    if which == 0 then r.high else if which == 1 then r.normal else r.low
  }

  /** The turns before `which` are over: their queues are empty. */
  ghost predicate EmptyBefore(r: Room, which: nat) {
    (which > 0 ==> r.high == []) && (which > 1 ==> r.normal == []) && (which > 2 ==> r.low == [])
  }

  function ShiftNth(r: Room, which: nat): Room
    requires Nth(r, which) != []
  {
    if which == 0 then r.(high := r.high[1..])
    else if which == 1 then r.(normal := r.normal[1..])
    else r.(low := r.low[1..])
  }

  /** Shifting the current queue is taking the head of the whole line. */
  lemma ShiftNthIsHead(r: Room, pressure: bool, which: nat)
    requires which < (if pressure then 2 else 3) && EmptyBefore(r, which) && Nth(r, which) != []
    ensures Offered(r, pressure) != [] && Offered(r, pressure)[0] == Nth(r, which)[0]
    ensures Shifted(r, pressure, 1) == ShiftNth(r, which)
    ensures EmptyBefore(ShiftNth(r, which), which)
  {
  }

  lemma EmptyLine(r: Room, pressure: bool)
    requires EmptyBefore(r, if pressure then 2 else 3)
    ensures Offered(r, pressure) == []
  {
  }

  ghost function SendIf(c: Config, s: State, toWorkers: bool, failing: set<nat>): State {
    if toWorkers then SendWork(c, s, failing) else s
  }

  /** Sending neither reads nor writes the processing flag. */
  lemma SendIfFlag(c: Config, s: State, toWorkers: bool, failing: set<nat>)
    ensures SendIf(c, s.(processing := true), toWorkers, failing)
            == SendIf(c, s, toWorkers, failing).(processing := true)
    ensures SendIf(c, s, toWorkers, failing).processing == s.processing
  {
  }

  lemma TakeFlag(c: Config, s: State, k: nat)
    requires k <= |Offered(s.room, s.pressure)|
    ensures Take(c, s.(processing := true), k) == Take(c, s, k).(processing := true)
    ensures Take(c, s, k).processing == s.processing
  {
  }

  /** What a pass does while the processing flag is up. */
  ghost function PassBody(c: Config, s: State, slots: nat, failing: set<nat>): State {
    var line := Offered(s.room, s.pressure);
    var k := Min(slots, |line|);
    SendIf(c, Take(c, s, k), ForWorkers(c, line[..k]) != [], failing)
  }

  lemma PassBodyFlag(c: Config, s: State, s': State, slots: nat, failing: set<nat>)
    requires s' == s.(processing := true)
    ensures PassBody(c, s', slots, failing) == PassBody(c, s, slots, failing).(processing := true)
    ensures PassBody(c, s, slots, failing).processing == s.processing
  {
    var line := Offered(s.room, s.pressure);
    var k := Min(slots, |line|);
    TakeFlag(c, s, k);
    SendIfFlag(c, Take(c, s, k), ForWorkers(c, line[..k]) != [], failing);
  }

  lemma PassIsBody(c: Config, s: State, slots: nat, failing: set<nat>)
    requires !s.processing && s.active < c.maxConcurrent && slots == Min(c.concurrentTasks, c.maxConcurrent - s.active)
    ensures ProcessQueue(c, s, failing) == WakeIfNeeded(c, PassBody(c, s, slots, failing))
  {
    assert PassSize(c, s) == Min(slots, |Offered(s.room, s.pressure)|);
  }

  /** A pass is its body and then the finally block. */
  lemma PassParts(c: Config, s: State, s': State, slots: nat, failing: set<nat>)
    requires !s.processing && s.active < c.maxConcurrent && slots == Min(c.concurrentTasks, c.maxConcurrent - s.active)
    requires s' == s.(processing := true)
    ensures ProcessQueue(c, s, failing) == WakeIfNeeded(c, PassBody(c, s', slots, failing).(processing := false))
  {
    PassIsBody(c, s, slots, failing);
    PassBodyFlag(c, s, s', slots, failing);
  }

  function Started(c: Config, s: State, x: Task): State {
    var s' := s.(active := s.active + 1);
    if Eligible(c, x) then s'.(pool := AddAll(s.pool, [x])) else s'.(inline := s.inline + [x])
  }

  lemma StartedRoom(c: Config, s: State, x: Task)
    ensures Started(c, s, x).room == s.room && Started(c, s, x).pressure == s.pressure
  {
  }

  /** `t` is the pass's state after `done` tasks, of which `toWorkers` went to the workers. */
  ghost predicate TakenSoFar(c: Config, s0: State, done: nat, toWorkers: nat, t: State) {
    && done <= |Offered(s0.room, s0.pressure)|
    && t == Take(c, s0, done)
    && toWorkers == |ForWorkers(c, Offered(s0.room, s0.pressure)[..done])|
  }

  lemma TakenNone(c: Config, s: State)
    ensures TakenSoFar(c, s, 0, 0, s)
  {
    TakeNone(c, s);
    assert Offered(s.room, s.pressure)[..0] == [];
  }

  lemma TakenMore(c: Config, s0: State, done: nat, toWorkers: nat, t: State, which: nat)
    requires TakenSoFar(c, s0, done, toWorkers, t) && which < (if t.pressure then 2 else 3)
    requires EmptyBefore(t.room, which) && Nth(t.room, which) != []
    ensures
      var x := Nth(t.room, which)[0];
      && TakenSoFar(c, s0, done + 1, toWorkers + (if Eligible(c, x) then 1 else 0),
                    Started(c, t.(room := ShiftNth(t.room, which)), x))
      && EmptyBefore(ShiftNth(t.room, which), which)
  {
    var line := Offered(s0.room, s0.pressure);
    var x := Nth(t.room, which)[0];
    ShiftNthIsHead(t.room, t.pressure, which);
    ShiftedRest(s0.room, s0.pressure, done);
    assert line[done] == x;
    assert Take(c, s0, done + 1) == TakeOne(c, t, x) by { TakeNext(c, s0, done, t); }
    assert |ForWorkers(c, line[..done + 1])| == toWorkers + (if Eligible(c, x) then 1 else 0) by {
      PartsNext(c, line, done);
    }
    assert TakeOne(c, t, x) == Started(c, t.(room := ShiftNth(t.room, which)), x);
  }

  lemma TakenAll(c: Config, s0: State, done: nat, toWorkers: nat, t: State)
    requires TakenSoFar(c, s0, done, toWorkers, t) && EmptyBefore(t.room, if t.pressure then 2 else 3)
    ensures done == |Offered(s0.room, s0.pressure)|
  {
    EmptyLine(t.room, t.pressure);
    ShiftedRest(s0.room, s0.pressure, done);
  }

  lemma TakeNone(c: Config, s: State)
    ensures Take(c, s, 0) == s
  {
    var line := Offered(s.room, s.pressure);
    assert line[..0] == [] && ForWorkers(c, []) == [] && ForInline(c, []) == [];
    assert AddAll(s.pool, []) == s.pool by { assert ItemsFor([]) == []; }
    assert Shifted(s.room, s.pressure, 0) == s.room;
    assert s.inline + [] == s.inline;
  }

  class Service {
    const c: Config

    // queue-state.holder.ts
    var room: Room
    var lastId: nat
    var active: int
    var processing: bool
    var pending: bool
    // memory.service.ts
    var pressure: bool
    // promises that have not run their last callback yet
    var inline: seq<Task>
    var unreleased: seq<Task>
    var groups: seq<Group>
    // worker-pool.service.ts and worker-task-router.service.ts
    var pool: Pool
    // queue-stats.service.ts
    var stats: Stats
    // histories
    ghost var refused: nat
    ghost var log: Log

    ghost function View(): State reads this {
      State(room, lastId, active, pending, processing, pressure, inline, unreleased, groups, pool, stats, refused, log)
    }

    constructor (c: Config)
      ensures this.c == c && View() == Initial(c)
    {
      this.c := c;
      room := Room([], [], [], []);
      lastId, active, processing, pending, pressure := c.restoredId, 0, false, false, false;
      inline, unreleased, groups := [], [], [];
      pool := Pool([], seq(c.workers, _ => false), map[], PerType(0, 0, 0), 0, [], []);
      stats := c.restored;
      refused, log := 0, Log([], [], [], []);
    }

    // -------------------------------------------------------------- queries

    method GetBatchTaskCount() returns (count: nat)
      ensures count == BatchCount(room.batches)
    {
      var bs := room.batches;
      count := 0;
      var i := |bs|;
      assert bs[i..] == [];
      while i > 0
        invariant 0 <= i <= |bs| && count == BatchCount(bs[i..])
      {
        i := i - 1;
        assert bs[i..][1..] == bs[i + 1..];
        count := count + |bs[i].batch.tasks|;
      }
      assert bs[0..] == bs;
    }

    method GetTotalQueueLength() returns (n: nat)
      ensures n == Total(room)
    {
      n := GetBatchTaskCount();
      n := n + |room.high| + |room.normal| + |room.low|;
    }

    // -------------------------------------------------------------- small steps

    method RequestProcessQueue()
      modifies this`pending
      ensures pending
    {
      if !pending { pending := true; }
    }

    method DecrementActiveRequests()
      modifies this`active
      ensures active == Less(old(active), 1)
    {
      active := Max(0, active - 1);
    }

    /** The callback for a worker task that could not be sent. */
    method OnDispatchFailed(t: Task)
      modifies this`active, this`pending, this`stats, this`log
      ensures View() == FailTasks(old(View()), [t])
    {
      log := log.(rejected := log.rejected + [t]);
      DecrementActiveRequests();
      stats := stats.(rejected := stats.rejected + 1);
      RequestProcessQueue();
    }

    // -------------------------------------------------------------- enqueue

    method AddTaskToBatch(t: Task, now: int)
      modifies this`room
      ensures room == old(room).(batches := AddToBatch(t, old(room.batches), now))
    {
      var bs := room.batches;
      var j := Find(bs, t.category);
      if j == |bs| {
        bs := bs + [Entry(t.category, Batch([], t.category, 0, now))];
      }
      var b := bs[j].batch;
      b := b.(tasks := b.tasks + [t]);
      b := b.(totalSize := b.totalSize + if t.size == 0 then 1 else t.size);
      room := room.(batches := bs[j := Entry(bs[j].key, b)]);
    }

    /** The placement half of enqueue. */
    method PlaceTask(t: Task, batch: bool, now: int)
      modifies this`room
      ensures room == Place(old(room), t, batch, now)
    {
      if batch && ShouldBatch(t, room.batches) {
        AddTaskToBatch(t, now);
      } else if t.priority >= 5 {
        room := room.(high := room.high + [t]);
      } else if t.priority >= 0 {
        room := room.(normal := room.normal + [t]);
      } else {
        room := room.(low := room.low + [t]);
      }
    }

    method Refuse()
      modifies this`stats, this`refused
      ensures stats == old(stats).(rejected := old(stats).rejected + 1) && refused == old(refused) + 1
    {
      stats := stats.(rejected := stats.rejected + 1);
      refused := refused + 1;
    }

    method EnqueueTask(o: Request, now: int) returns (v: Verdict)
      modifies this`room, this`lastId, this`pending, this`stats, this`refused, this`log
      ensures v == Admission(c, old(View()), o)
      ensures View() == Enqueue(c, old(View()), o, now)
    {
      if o.size <= 0 || o.category == "" { return BadOption; }
      if pressure && o.priority < 0 {
        Refuse();
        return Overloaded;
      }
      var n := GetTotalQueueLength();
      if n >= c.overflowThreshold {
        Refuse();
        return Full;
      }
      Accept(o, now);
      return Accepted;
    }

    method Accept(o: Request, now: int)
      requires o.size > 0
      modifies this`room, this`lastId, this`pending, this`log
      ensures
        var t := NewTask(old(View()), o, now);
        View() == Admit(old(View()), t, Place(old(room), t, o.batch, now))
    {
      lastId := lastId + 1;
      var t := Task(lastId, o.priority, o.category, o.size, o.workload, o.hasCode, now);
      log := log.(accepted := log.accepted + [t]);
      PlaceTask(t, o.batch, now);
      RequestProcessQueue();
    }

    // -------------------------------------------------------------- dispatching to workers

    /** The search loop: what it picks, what it leaves, and the callbacks for what it drops. */
    method SearchQueue(q0: seq<WorkItem>, at: PerType)
      returns (item: Option<WorkItem>, q: seq<WorkItem>, out: seq<WorkItem>)
      modifies this`active, this`pending, this`stats, this`log
      ensures Pick(item, q, out) == Dequeue(q0, at, c.limits)
      ensures View() == FailTasks(old(View()), TasksOf(out))
    {
      q, out := q0, [];
      assert q[..0] == [] && q[0..] == q && TasksOf(out) == [];
      var i := 0;
      while i < |q|
        invariant 0 <= i <= |q|
        invariant Dequeue(q0, at, c.limits) == Resumed(q[..i], out, Dequeue(q[i..], at, c.limits))
        invariant View() == FailTasks(old(View()), TasksOf(out))
        decreases |q| - i
      {
        var candidate := q[i];
        var k := TypeOf(candidate);
        DequeueAt(q, i, out, at, c.limits);
        if k == Unknown {
          q := q[..i] + q[i + 1..];
          OnDispatchFailed(candidate.task);
          FailedMore(old(View()), out, candidate);
          out := out + [candidate];
        } else if at.At(k) >= c.limits.At(k) {
          i := i + 1;
        } else {
          q := q[..i] + q[i + 1..];
          item := Some(candidate.(kind := Some(k)));
          return;
        }
      }
      assert q[i..] == [] && q[..i] == q && out + [] == out && q + [] == q;
      item := None;
    }

    method DequeueDispatchableTask() returns (item: Option<WorkItem>)
      modifies this`pool, this`active, this`pending, this`stats, this`log
      ensures item == Dequeue(old(pool.queue), old(pool.active), c.limits).item
      ensures View() == Dequeued(old(View()), Dequeue(old(pool.queue), old(pool.active), c.limits))
    {
      var q, out;
      item, q, out := SearchQueue(pool.queue, pool.active);
      pool := pool.(queue := q, dropped := pool.dropped + |out|);
    }

    /** postMessage and its two outcomes. */
    method SendTo(i: nat, w: WorkItem, failing: set<nat>)
      requires i < |pool.busy| && !pool.busy[i]
      modifies this`pool, this`active, this`pending, this`stats, this`log
      ensures View() == SentTo(old(View()), i, w, failing)
    {
      pool := pool.(picked := pool.picked + [w.task]);
      if i in failing {
        OnDispatchFailed(w.task);
        pool := pool.(busy := pool.busy[i := false], jobs := pool.jobs - {i});
        assert pool.busy == old(pool.busy);
      } else {
        var k := TypeOf(w);
        pool := pool.(busy := pool.busy[i := true],
                      active := pool.active.Put(k, pool.active.At(k) + 1),
                      jobs := pool.jobs[i := w]);
      }
    }

    /** The loop body of processWorkerTasks for an idle worker. */
    method OfferWorker(i: nat, failing: set<nat>)
      requires i < |pool.busy| && !pool.busy[i]
      modifies this`pool, this`active, this`pending, this`stats, this`log
      ensures View() == Offered1(c, old(View()), i, failing)
    {
      OfferParts(c, View(), i, failing);
      var item := DequeueDispatchableTask();
      if item.Some? { SendTo(i, item.value, failing); }
    }

    method ProcessWorkerTasks(failing: set<nat>)
      modifies this`pool, this`active, this`pending, this`stats, this`log
      ensures View() == SendWork(c, old(View()), failing)
    {
      if !c.useWorkers || |pool.queue| == 0 { return; }
      ghost var s0 := View();
      var i := 0;
      while i < |pool.busy|
        invariant 0 <= i <= |pool.busy|
        invariant FinishFrom(c, View(), i, failing) == FinishFrom(c, s0, 0, failing)
        decreases |pool.busy| - i
      {
        FinishStep(c, View(), i, failing);
        if !pool.busy[i] {
          if |pool.queue| == 0 {
            RangeEmpty(pool, i, c.limits, failing);
            return;
          }
          OfferWorker(i, failing);
        }
        i := i + 1;
      }
    }

    // -------------------------------------------------------------- the process pass

    method ShiftQueue(which: nat) returns (t: Task)
      requires Nth(room, which) != []
      modifies this`room
      ensures t == Nth(old(room), which)[0] && room == ShiftNth(old(room), which)
    {
      t := Nth(room, which)[0];
      room := ShiftNth(room, which);
    }

    /** One turn of the inner loop: a shifted task takes a slot and goes to the worker queue or runs inline. */
    method StartHead(which: nat) returns (toWorker: bool)
      requires Nth(room, which) != []
      modifies this`room, this`active, this`pool, this`inline
      ensures toWorker == Eligible(c, Nth(old(room), which)[0])
      ensures View() == Started(c, old(View()).(room := ShiftNth(old(room), which)), Nth(old(room), which)[0])
    {
      var t := ShiftQueue(which);
      toWorker := Eligible(c, t);
      active := active + 1;
      if toWorker {
        pool := pool.(queue := pool.queue + [ItemFor(t)], added := pool.added + [t]);
        assert ItemsFor([t]) == [ItemFor(t)];
      } else {
        inline := inline + [t];
      }
    }

    /** The inner loop of processQueue for one queue; `s0` is the state before the pass. */
    method TakeFrom(which: nat, slots: nat, before: nat, sent: nat, ghost s0: State)
      returns (done: nat, toWorkers: nat)
      requires which < (if pressure then 2 else 3) && EmptyBefore(room, which) && before <= slots
      requires TakenSoFar(c, s0, before, sent, View())
      modifies this`room, this`active, this`pool, this`inline
      ensures before <= done <= slots && TakenSoFar(c, s0, done, toWorkers, View())
      ensures done < slots ==> EmptyBefore(room, which + 1)
    {
      done, toWorkers := before, sent;
      ghost var t := View();
      while |Nth(room, which)| > 0 && done < slots
        invariant before <= done <= slots && View() == t && EmptyBefore(t.room, which)
        invariant TakenSoFar(c, s0, done, toWorkers, t)
        decreases slots - done
      {
        TakenMore(c, s0, done, toWorkers, t, which);
        t := Started(c, t.(room := ShiftNth(t.room, which)), Nth(t.room, which)[0]);
        StartedRoom(c, View().(room := ShiftNth(room, which)), Nth(room, which)[0]);
        var toWorker := StartHead(which);
        done := done + 1;
        toWorkers := toWorkers + if toWorker then 1 else 0;
      }
    }

    /** The nested loops of processQueue. */
    method TakeTasks(slots: nat) returns (toWorkers: nat)
      modifies this`room, this`active, this`pool, this`inline
      ensures
        var line := Offered(old(room), pressure);
        var k := Min(slots, |line|);
        && View() == Take(c, old(View()), k)
        && (toWorkers > 0 <==> ForWorkers(c, line[..k]) != [])
    {
      ghost var s0 := View();
      TakenNone(c, s0);
      var done := 0;
      toWorkers := 0;
      var which := 0;
      while which < (if pressure then 2 else 3)
        invariant 0 <= which <= (if pressure then 2 else 3) && done <= slots
        invariant TakenSoFar(c, s0, done, toWorkers, View())
        invariant EmptyBefore(room, which) || done == slots
      {
        if done >= slots { break; }
        done, toWorkers := TakeFrom(which, slots, done, toWorkers, s0);
        which := which + 1;
      }
      if done < slots { TakenAll(c, s0, done, toWorkers, View()); }
    }

    method ProcessQueueNow(failing: set<nat>)
      modifies this`room, this`active, this`pool, this`inline, this`processing, this`pending, this`stats, this`log
      ensures View() == ProcessQueue(c, old(View()), failing)
    {
      if processing || active >= c.maxConcurrent { return; }
      var slots := Min(c.concurrentTasks, c.maxConcurrent - active);
      processing := true;
      PassParts(c, old(View()), View(), slots, failing);
      TakeAndSend(slots, failing);
      EndOfPass();
    }

    /** The try block of processQueue. */
    method TakeAndSend(slots: nat, failing: set<nat>)
      modifies this`room, this`active, this`pool, this`inline, this`pending, this`stats, this`log
      ensures View() == PassBody(c, old(View()), slots, failing)
    {
      var toWorkers := TakeTasks(slots);
      if toWorkers > 0 { ProcessWorkerTasks(failing); }
    }

    /** The finally block of processQueue. */
    method EndOfPass()
      modifies this`processing, this`pending
      ensures View() == WakeIfNeeded(c, old(View()).(processing := false))
    {
      processing := false;
      var waiting := GetTotalQueueLength();
      if active < c.maxConcurrent && waiting > 0 { RequestProcessQueue(); }
    }

    /** The setImmediate callback of requestProcessQueue. */
    method OnProcessTick(failing: set<nat>)
      modifies this`room, this`active, this`pool, this`inline, this`processing, this`pending, this`stats, this`log
      ensures View() == Step(c, old(View()), ProcessTick(failing))
    {
      if pending {
        pending := false;
        ProcessQueueNow(failing);
      }
    }

    // -------------------------------------------------------------- settling

    method OnInlineSettled(i: nat, ok: bool)
      modifies this`inline, this`unreleased, this`stats, this`log
      ensures View() == InlineSettle(old(View()), i, ok)
    {
      if i >= |inline| { return; }
      var t := inline[i];
      inline := Splice(inline, i);
      unreleased := unreleased + [t];
      if ok {
        log := log.(resolved := log.resolved + [t]);
        stats := stats.(processed := stats.processed + 1);
      } else {
        log := log.(rejected := log.rejected + [t]);
        stats := stats.(rejected := stats.rejected + 1);
      }
    }

    method OnInlineReleased(i: nat)
      modifies this`unreleased, this`active, this`pending
      ensures View() == InlineRelease(old(View()), i)
    {
      if i >= |unreleased| { return; }
      unreleased := Splice(unreleased, i);
      DecrementActiveRequests();
      RequestProcessQueue();
    }

    method OnGroupSettled(g: nat, i: nat, ok: bool)
      modifies this`groups, this`log
      ensures View() == GroupSettle(old(View()), g, i, ok)
    {
      if g >= |groups| || i >= |groups[g].running| { return; }
      var t := groups[g].running[i];
      groups := groups[g := Tally(groups[g], i, ok)];
      if ok {
        log := log.(resolved := log.resolved + [t]);
      } else {
        log := log.(rejected := log.rejected + [t]);
      }
    }

    /** The onComplete callback of processBatch. */
    method OnBatchProgress(done: nat, activeChange: int, failed: nat)
      modifies this`active, this`stats, this`pending
      ensures stats == old(stats).(processed := old(stats).processed + done, rejected := old(stats).rejected + failed)
      ensures active == Max(0, old(active) + activeChange)
      ensures pending == (old(pending) || activeChange < 0)
    {
      stats := stats.(processed := stats.processed + done);
      if failed > 0 { stats := stats.(rejected := stats.rejected + failed); }
      active := Max(0, active + activeChange);
      if activeChange < 0 { RequestProcessQueue(); }
    }

    method OnGroupFinished(g: nat)
      modifies this`groups, this`active, this`stats, this`pending
      ensures View() == GroupFinish(old(View()), g)
    {
      if g >= |groups| || groups[g].running != [] { return; }
      var gr := groups[g];
      groups := groups[..g] + groups[g + 1..];
      OnBatchProgress(gr.processed, 0 - gr.count, gr.failed);
    }

    method SettleWorker(i: nat, ok: bool)
      requires i < |pool.busy|
      modifies this`pool, this`active, this`stats, this`log, this`pending
      ensures View() == Settle(old(View()), i, ok)
    {
      var had := i in pool.jobs;
      if !had {
        pool := pool.(jobs := pool.jobs - {i}, busy := pool.busy[i := false]);
        return;
      }
      var item := pool.jobs[i];
      var k := TypeOf(item);
      pool := pool.(jobs := pool.jobs - {i}, busy := pool.busy[i := false],
                    active := pool.active.Put(k, Max(0, pool.active.At(k) - 1)));
      if ok {
        log := log.(resolved := log.resolved + [item.task]);
        stats := stats.(processed := stats.processed + 1);
      } else {
        log := log.(rejected := log.rejected + [item.task]);
        stats := stats.(rejected := stats.rejected + 1);
      }
      DecrementActiveRequests();
      RequestProcessQueue();
    }

    method HandleWorkerResult(i: nat, ok: bool, failing: set<nat>)
      modifies this`pool, this`active, this`stats, this`log, this`pending
      ensures View() == WorkerResult(c, old(View()), i, ok, failing)
    {
      if i >= |pool.busy| { return; }
      SettleWorker(i, ok);
      ProcessWorkerTasks(failing);
    }

    method OnWorkerReady(i: nat)
      modifies this`pool
      ensures View() == WorkerReady(old(View()), i)
    {
      if i < |pool.busy| { pool := pool.(busy := pool.busy[i := false]); }
    }

    method HandleWorkerFailure(i: nat, failing: set<nat>)
      modifies this`pool, this`active, this`stats, this`log, this`pending
      ensures View() == WorkerFailure(c, old(View()), i, failing)
    {
      if i >= |pool.busy| { return; }
      if i in pool.jobs { HandleWorkerResult(i, false, failing); }
      OnWorkerReady(i);
    }

    // -------------------------------------------------------------- batches

    method ProcessBatch(category: string, now: int)
      modifies this`room, this`groups, this`active, this`stats, this`pending
      ensures View() == StartBatch(c, old(View()), category, now)
    {
      var bs := room.batches;
      var j := Find(bs, category);
      if j == |bs| { return; }
      var b := bs[j].batch;
      if b.tasks == [] {
        room := room.(batches := Delete(bs, category));
        return;
      }
      var slots := c.maxConcurrent - active;
      if slots <= 0 { return; }
      var k := Min(|b.tasks|, slots);
      if k == |b.tasks| {
        room := room.(batches := Delete(bs, category));
      } else {
        var size := Max(0, b.totalSize - SumSizes(b.tasks[..k]));
        var left := b.(tasks := b.tasks[k..], totalSize := size, createdAt := now);
        room := room.(batches := bs[j := Entry(bs[j].key, left)]);
      }
      groups := groups + [Group(b.tasks[..k], k, 0, 0)];
      OnBatchProgress(0, k, 0);
    }

    /** The loops of processAgedBatches and forceReduceQueues over the map's entries. */
    method ProcessFiring(why: Trigger, now: int)
      modifies this`room, this`groups, this`active, this`stats, this`pending
      ensures View() == StartFiring(c, old(View()), Keys(old(room.batches)), why, now)
    {
      var keys := Keys(room.batches);
      ghost var goal := StartFiring(c, View(), keys, why, now);
      assert keys[0..] == keys;
      var i := 0;
      while i < |keys|
        invariant 0 <= i <= |keys|
        invariant StartFiring(c, View(), keys[i..], why, now) == goal
      {
        assert keys[i..][1..] == keys[i + 1..];
        var j := Find(room.batches, keys[i]);
        if j < |room.batches| && Fires(why, room.batches[j].batch, now) {
          ProcessBatch(keys[i], now);
        }
        i := i + 1;
      }
    }

    // -------------------------------------------------------------- timeouts and memory pressure

    method RemoveTaskFromQueues(t: Task) returns (removed: bool)
      modifies this`room
      ensures removed == Waiting(old(room), t)
      ensures room == if removed then Remove(old(room), t) else old(room)
    {
      if t in room.high {
        room := room.(high := Splice(room.high, IndexOf(room.high, t)));
        return true;
      }
      if t in room.normal {
        room := room.(normal := Splice(room.normal, IndexOf(room.normal, t)));
        return true;
      }
      if t in room.low {
        room := room.(low := Splice(room.low, IndexOf(room.low, t)));
        return true;
      }
      removed := RemoveTaskFromBatches(t);
    }

    method RemoveTaskFromBatches(t: Task) returns (removed: bool)
      modifies this`room
      ensures removed == (Holder(old(room.batches), t) < |old(room.batches)|)
      ensures room == old(room).(batches := RemoveFromBatches(old(room.batches), t))
    {
      var bs := room.batches;
      var j := 0;
      while j < |bs| && t !in bs[j].batch.tasks
        invariant 0 <= j <= |bs|
        invariant forall h :: 0 <= h < j ==> t !in bs[h].batch.tasks
      {
        j := j + 1;
      }
      assert j == Holder(bs, t);
      if j == |bs| { return false; }
      var e := Leave(bs[j], t);
      bs := bs[j := e];
      if e.batch.tasks == [] { bs := Delete(bs, e.batch.category); }
      room := room.(batches := bs);
      return true;
    }

    method OnQueueTimeout(t: Task)
      modifies this`room, this`stats, this`log
      ensures View() == QueueTimeout(old(View()), t)
    {
      var removed := RemoveTaskFromQueues(t);
      if removed {
        stats := stats.(timeout := stats.timeout + 1);
        log := log.(timedOut := log.timedOut + [t]);
      }
    }

    /** cleanupQueue: a backward splice loop. */
    method CleanupQueue(ts: seq<Task>, now: int) returns (kept: seq<Task>, n: nat)
      modifies this`log
      ensures kept == Young(ts, now, c.taskTimeoutMs) && n == |Expired(ts, now, c.taskTimeoutMs)|
      ensures log == old(log).(timedOut := old(log).timedOut + Expired(ts, now, c.taskTimeoutMs))
    {
      var out: seq<Task> := [];
      kept := ts;
      var i := |ts|;
      SweepStart(ts, now, c.taskTimeoutMs);
      while i > 0
        invariant 0 <= i <= |ts| && i <= |kept|
        invariant Swept(ts, i, kept, out, now, c.taskTimeoutMs)
        invariant log == old(log).(timedOut := old(log).timedOut + out)
      {
        i := i - 1;
        var t := kept[i];
        SweepOne(ts, i, kept, out, now, c.taskTimeoutMs);
        if TooOld(t.timestamp, now, c.taskTimeoutMs) {
          kept := kept[..i] + kept[i + 1..];
          log := log.(timedOut := log.timedOut + [t]);
          out := out + [t];
        }
      }
      n := |out|;
      SweepEnd(ts, kept, out, now, c.taskTimeoutMs);
    }

    /** The batch half of cleanupOldTasks. */
    method CleanupBatches(now: int) returns (n: nat)
      modifies this`room, this`log
      ensures room == old(room).(batches := YoungBatches(old(room.batches), now, c.taskTimeoutMs))
      ensures n == |ExpiredBatches(old(room.batches), now, c.taskTimeoutMs)|
      ensures log == old(log).(timedOut := old(log).timedOut + ExpiredBatches(old(room.batches), now, c.taskTimeoutMs))
    {
      var bs := room.batches;
      ghost var out := ExpiredBatches(bs, now, c.taskTimeoutMs);
      ghost var goal := log.timedOut + out;
      var kept: seq<Entry> := [];
      n := 0;
      var i := 0;
      assert bs[0..] == bs;
      while i < |bs|
        invariant 0 <= i <= |bs|
        invariant room == old(room)
        invariant YoungBatches(bs, now, c.taskTimeoutMs) == kept + YoungBatches(bs[i..], now, c.taskTimeoutMs)
        invariant log == old(log).(timedOut := log.timedOut)
        invariant goal == log.timedOut + ExpiredBatches(bs[i..], now, c.taskTimeoutMs)
        invariant n + |ExpiredBatches(bs[i..], now, c.taskTimeoutMs)| == |out|
      {
        assert bs[i..][1..] == bs[i + 1..];
        if TooOld(bs[i].batch.createdAt, now, c.taskTimeoutMs) {
          log := log.(timedOut := log.timedOut + bs[i].batch.tasks);
          n := n + |bs[i].batch.tasks|;
        } else {
          kept := kept + [bs[i]];
        }
        i := i + 1;
      }
      assert bs[i..] == [] && kept + [] == kept;
      room := room.(batches := kept);
    }

    /** The three calls of cleanupQueue. */
    method CleanupQueues(now: int) returns (n: nat)
      modifies this`room, this`log
      ensures room == old(room).(high := Young(old(room.high), now, c.taskTimeoutMs),
                                 normal := Young(old(room.normal), now, c.taskTimeoutMs),
                                 low := Young(old(room.low), now, c.taskTimeoutMs))
      ensures log == old(log).(timedOut := old(log).timedOut + Expired(old(room.high), now, c.taskTimeoutMs)
                                           + Expired(old(room.normal), now, c.taskTimeoutMs)
                                           + Expired(old(room.low), now, c.taskTimeoutMs))
      ensures n == |Expired(old(room.high), now, c.taskTimeoutMs)| + |Expired(old(room.normal), now, c.taskTimeoutMs)|
                   + |Expired(old(room.low), now, c.taskTimeoutMs)|
    {
      var high, a := CleanupQueue(room.high, now);
      var normal, b := CleanupQueue(room.normal, now);
      var low, d := CleanupQueue(room.low, now);
      room := Room(high, normal, low, room.batches);
      n := a + b + d;
    }

    method CleanupOldTasks(now: int)
      modifies this`room, this`stats, this`log
      ensures View() == Cleanup(c, old(View()), now)
    {
      var a := CleanupQueues(now);
      var b := CleanupBatches(now);
      stats := stats.(timeout := stats.timeout + (a + b));
      CleanupParts(c, old(View()), now, a + b);
    }

    /** The pops of forceReduceQueues. */
    method PopTasks(ts: seq<Task>, k: nat) returns (kept: seq<Task>)
      requires k <= |ts|
      modifies this`log
      ensures kept == ts[..k]
      ensures log == old(log).(rejected := old(log).rejected + TailFirst(ts[k..]))
    {
      ghost var goal := log.rejected + TailFirst(ts[k..]);
      kept := ts;
      while |kept| > k
        invariant k <= |kept| && kept == ts[..|kept|]
        invariant log == old(log).(rejected := log.rejected)
        invariant goal == log.rejected + TailFirst(kept[k..])
      {
        var t := kept[|kept| - 1];
        assert kept[k..][..|kept[k..]| - 1] == kept[..|kept| - 1][k..];
        kept := kept[..|kept| - 1];
        log := log.(rejected := log.rejected + [t]);
      }
    }

    method DropNewestTasks()
      modifies this`room, this`stats, this`log
      ensures View() == DropNewest(old(View()))
    {
      var remove := |room.low| / 2;
      DropNewestParts(View(), remove);
      var low := PopTasks(room.low, |room.low| - remove);
      room := room.(low := low);
      stats := stats.(rejected := stats.rejected + remove);
    }

    method CheckMemoryUsage(usage: real, gc: bool, now: int)
      modifies this
      ensures View() == MemoryCheck(c, old(View()), usage, gc, now)
    {
      pressure := usage > 0.75;
      if pressure {
        CleanupOldTasks(now);
        if usage > 0.9 && gc {
          DropNewestTasks();
          ProcessFiring(Heavy, now);
        }
      } else if |room.low| > 0 {
        RequestProcessQueue();
      }
    }

    // -------------------------------------------------------------- the event loop

    /** The periodic tick of the queue service. */
    method OnIntervalTick()
      modifies this`pending
      ensures View() == Step(c, old(View()), IntervalTick)
    {
      var n := GetTotalQueueLength();
      if n > 0 { RequestProcessQueue(); }
    }

    /** Any event, run to completion: the object moves exactly as the state machine does. */
    method Handle(e: Event)
      modifies this
      ensures View() == Step(c, old(View()), e)
    {
      match e
      case EnqueueCall(o, now) => var _ := EnqueueTask(o, now);
      case ProcessTick(failing) => OnProcessTick(failing);
      case IntervalTick => OnIntervalTick();
      case InlineSettled(i, ok) => OnInlineSettled(i, ok);
      case InlineReleased(i) => OnInlineReleased(i);
      case BatchTick(category, now) => ProcessBatch(category, now);
      case AgingTick(now) => ProcessFiring(Aged, now);
      case GroupSettled(g, i, ok) => OnGroupSettled(g, i, ok);
      case GroupFinished(g) => OnGroupFinished(g);
      case TimerFired(t) => OnQueueTimeout(t);
      case MemoryTick(usage, gc, now) => CheckMemoryUsage(usage, gc, now);
      case ResultMessage(i, ok, failing) => HandleWorkerResult(i, ok, failing);
      case ReadyMessage(i) => OnWorkerReady(i);
      case Failure(i, failing) => HandleWorkerFailure(i, failing);
    }
  }
}
