/** Batch starts, sweeps and the memory check in the caller's terms: one pass over the map, and ages spelled out. */
module SchedulerSweep {
  import opened Tasks
  import opened Queues
  import opened SchedulerSpec
  import opened SchedulerInv
  import opened Subsequences

  // ---------------------------------------------------------------- one batch

  /** The first `k` tasks of a batch as a running group. */
  function Started(e: Entry, k: nat): Group
    requires k <= |e.batch.tasks|
  {
    Group(e.batch.tasks[..k], k, 0, 0)
  }

  /** What the map keeps of a batch whose first `k` tasks started: nothing, or the rest, as old as a new batch. */
  function Remains(e: Entry, k: nat, now: int): seq<Entry>
    requires k <= |e.batch.tasks|
  {
    if k == |e.batch.tasks| then []
    else [Entry(e.key, Batch(e.batch.tasks[k..], e.batch.category,
                             e.batch.totalSize - SumSizes(e.batch.tasks[..k]), now))]
  }

  /** How many tasks a started batch sends: as many as it has and slots are free. */
  function Sends(e: Entry, free: int): nat { Max(0, Min(|e.batch.tasks|, free)) }

  /** The state after slots were taken for new groups. */
  function Opened(s: State, bs: seq<Entry>, gs: seq<Group>, taken: nat): State {
    s.(room := s.room.(batches := bs), groups := s.groups + gs, active := s.active + taken)
  }

  lemma SizesOfPart(e: Entry, k: nat, last: nat)
    requires BatchOk(e, last) && k <= |e.batch.tasks|
    ensures e.batch.totalSize - SumSizes(e.batch.tasks[..k]) >= 0
  {
    assert e.batch.tasks == e.batch.tasks[..k] + e.batch.tasks[k..];
    SumSizesAppend(e.batch.tasks[..k], e.batch.tasks[k..]);
  }

  /** One started batch in a map `done + [e] + rest`. */
  lemma StartsAt(c: Config, s: State, done: seq<Entry>, e: Entry, rest: seq<Entry>, now: int)
    requires Core(c, s) && s.room.batches == done + [e] + rest && s.active < c.maxConcurrent
    ensures
      var k := Sends(e, c.maxConcurrent - s.active);
      && k > 0
      && StartBatch(c, s, e.key, now) == Opened(s, done + Remains(e, k, now) + rest, [Started(e, k)], k)
  {
    var bs, j := s.room.batches, |done|;
    assert bs[j] == e && BatchOk(e, s.lastId);
    FindUnique(bs, j, s.lastId);
    var k := Sends(e, c.maxConcurrent - s.active);
    SizesOfPart(e, k, s.lastId);
    assert bs[..j] == done && bs[j + 1..] == rest;
    TakenFrom(bs, j, k, now, done, e, rest);
    assert StartBatch(c, s, e.key, now) == OpenGroup(s, TakeFromBatch(bs, j, k, now), Started(e, k));
  }

  lemma TakenFrom(bs: seq<Entry>, j: nat, k: nat, now: int, done: seq<Entry>, e: Entry, rest: seq<Entry>)
    requires bs == done + [e] + rest && j == |done| && k <= |e.batch.tasks| && Find(bs, e.key) == j
    requires e.batch.totalSize - SumSizes(e.batch.tasks[..k]) >= 0
    ensures TakeFromBatch(bs, j, k, now) == done + Remains(e, k, now) + rest
  {
    if k == |e.batch.tasks| {
      assert done + [] + rest == done + rest;
    } else {
      var x := Remains(e, k, now)[0];
      assert bs[j := x] == done + [x] + rest;
    }
  }

  /** A batch start: nothing without the batch or a free slot, otherwise exactly its first tasks. */
  lemma BatchStartsExactly(c: Config, s: State, category: string, now: int)
    requires Inv(c, s)
    ensures
      var s' := Step(c, s, BatchTick(category, now));
      && ((forall e :: e in s.room.batches ==> e.key != category) || s.active >= c.maxConcurrent ==> s' == s)
      && forall done, e, rest ::
           s.room.batches == done + [e] + rest && e.key == category && s.active < c.maxConcurrent ==>
           var k := Sends(e, c.maxConcurrent - s.active);
           k > 0 && s' == Opened(s, done + Remains(e, k, now) + rest, [Started(e, k)], k)
  {
    var j := Find(s.room.batches, category);
    StartBatchCases(c, s, category, now, j);
    if j < |s.room.batches| { assert s.room.batches[j] in s.room.batches; }
    forall done, e, rest | s.room.batches == done + [e] + rest && e.key == category && s.active < c.maxConcurrent
      ensures
        var k := Sends(e, c.maxConcurrent - s.active);
        k > 0 && StartBatch(c, s, category, now) == Opened(s, done + Remains(e, k, now) + rest, [Started(e, k)], k)
    {
      StartsAt(c, s, done, e, rest, now);
    }
  }

  // ---------------------------------------------------------------- a sweep

  /** Old enough for the aging timer, or heavy enough for a forced reduction. */
  predicate Due(e: Entry, why: Trigger, now: int) {
    match why
    case Aged => now - e.batch.createdAt >= 1500
    case Heavy => e.batch.totalSize > 50
  }

  datatype Swept = Swept(batches: seq<Entry>, groups: seq<Group>, taken: nat)

  /** One pass over the map: every due batch starts with the slots the ones before it left. */
  function Sweep(bs: seq<Entry>, free: int, why: Trigger, now: int): Swept {
    if bs == [] then Swept([], [], 0)
    else if Due(bs[0], why, now) && Sends(bs[0], free) > 0 then
      var k := Sends(bs[0], free);
      var r := Sweep(bs[1..], free - k, why, now);
      Swept(Remains(bs[0], k, now) + r.batches, [Started(bs[0], k)] + r.groups, k + r.taken)
    else
      var r := Sweep(bs[1..], free, why, now);
      Swept([bs[0]] + r.batches, r.groups, r.taken)
  }

  lemma OpenedTwice(s: State, bs: seq<Entry>, gs: seq<Group>, n: nat, bs': seq<Entry>, gs': seq<Group>, n': nat)
    ensures Opened(Opened(s, bs, gs, n), bs', gs', n') == Opened(s, bs', gs + gs', n + n')
  {
    assert s.groups + gs + gs' == s.groups + (gs + gs');
  }

  lemma KeysTail(bs: seq<Entry>)
    requires bs != []
    ensures Keys(bs)[0] == bs[0].key && Keys(bs)[1..] == Keys(bs[1..])
  {
  }

  /** `t` is `s` after the pass over the entries `rest`, which `done` precede in the map. */
  ghost predicate SweptTo(
    c: Config, s: State, done: seq<Entry>, rest: seq<Entry>, why: Trigger, now: int, t: State)
  {
    var r := Sweep(rest, c.maxConcurrent - s.active, why, now);
    t == Opened(s, done + r.batches, r.groups, r.taken)
  }

  lemma {:induction false} SweepsRest(
    c: Config, s: State, done: seq<Entry>, rest: seq<Entry>, why: Trigger, now: int, t: State)
    requires Inv(c, s) && s.room.batches == done + rest && t == StartFiring(c, s, Keys(rest), why, now)
    ensures SweptTo(c, s, done, rest, why, now, t)
    decreases |rest|
  {
    if rest == [] {
      NothingSwept(c, s, done, why, now);
    } else {
      var e, tail := rest[0], rest[1..];
      assert rest == [e] + tail && s.room.batches == done + [e] + tail;
      if Due(e, why, now) && s.active < c.maxConcurrent {
        var k, s1 := StartsFirst(c, s, done, e, tail, why, now);
        SweepsRest(c, s1, done + Remains(e, k, now), tail, why, now, t);
        StartedThenRest(c, s, done, e, tail, why, now, k, s1, t);
      } else {
        PassedOver(c, s, done, e, tail, why, now);
        SweepsRest(c, s, done + [e], tail, why, now, t);
        PassedThenRest(c, s, done, e, tail, why, now, t);
      }
    }
  }

  lemma NothingSwept(c: Config, s: State, done: seq<Entry>, why: Trigger, now: int)
    requires s.room.batches == done
    ensures SweptTo(c, s, done, [], why, now, s)
  {
    assert s.groups + [] == s.groups && done + [] == done;
  }

  lemma StartsFirst(c: Config, s: State, done: seq<Entry>, e: Entry, tail: seq<Entry>, why: Trigger, now: int)
    returns (k: nat, s1: State)
    requires Inv(c, s) && s.room.batches == done + [e] + tail && Due(e, why, now) && s.active < c.maxConcurrent
    ensures 0 < k == Sends(e, c.maxConcurrent - s.active) && k <= |e.batch.tasks|
    ensures s1 == Opened(s, done + Remains(e, k, now) + tail, [Started(e, k)], k) && Inv(c, s1)
    ensures StartFiring(c, s, Keys([e] + tail), why, now) == StartFiring(c, s1, Keys(tail), why, now)
  {
    var rest := [e] + tail;
    k := Sends(e, c.maxConcurrent - s.active);
    s1 := StartBatch(c, s, e.key, now);
    KeysTail(rest);
    assert rest[1..] == tail;
    FoundAt(s, done, e, tail);
    StartsAt(c, s, done, e, tail, now);
    StartBatchKeeps(c, s, e.key, now);
  }

  /** A batch that is not due, or finds no slot, is passed over. */
  lemma PassedOver(c: Config, s: State, done: seq<Entry>, e: Entry, tail: seq<Entry>, why: Trigger, now: int)
    requires Inv(c, s) && s.room.batches == done + [e] + tail && !(Due(e, why, now) && s.active < c.maxConcurrent)
    ensures StartFiring(c, s, Keys([e] + tail), why, now) == StartFiring(c, s, Keys(tail), why, now)
  {
    var rest := [e] + tail;
    KeysTail(rest);
    assert rest[1..] == tail;
    FoundAt(s, done, e, tail);
    if Due(e, why, now) { FullStart(c, s, e.key, now); }
  }

  lemma StartedThenRest(
    c: Config, s: State, done: seq<Entry>, e: Entry, tail: seq<Entry>, why: Trigger, now: int,
    k: nat, s1: State, t: State)
    requires 0 < k == Sends(e, c.maxConcurrent - s.active) && k <= |e.batch.tasks| && Due(e, why, now)
    requires s1 == Opened(s, done + Remains(e, k, now) + tail, [Started(e, k)], k)
    requires SweptTo(c, s1, done + Remains(e, k, now), tail, why, now, t)
    ensures SweptTo(c, s, done, [e] + tail, why, now, t)
  {
    var r := Sweep(tail, c.maxConcurrent - s1.active, why, now);
    var left := done + Remains(e, k, now);
    SweepStarted(e, tail, c.maxConcurrent - s.active, why, now, k, r);
    OpenedTwice(s, left + tail, [Started(e, k)], k, left + r.batches, r.groups, r.taken);
    assert left + r.batches == done + (Remains(e, k, now) + r.batches);
  }

  lemma SweepStarted(e: Entry, tail: seq<Entry>, free: int, why: Trigger, now: int, k: nat, r: Swept)
    requires 0 < k == Sends(e, free) && k <= |e.batch.tasks| && Due(e, why, now)
    requires r == Sweep(tail, free - k, why, now)
    ensures Sweep([e] + tail, free, why, now)
            == Swept(Remains(e, k, now) + r.batches, [Started(e, k)] + r.groups, k + r.taken)
  {
    assert ([e] + tail)[1..] == tail;
  }

  lemma PassedThenRest(
    c: Config, s: State, done: seq<Entry>, e: Entry, tail: seq<Entry>, why: Trigger, now: int, t: State)
    requires !(Due(e, why, now) && s.active < c.maxConcurrent) && SweptTo(c, s, done + [e], tail, why, now, t)
    ensures SweptTo(c, s, done, [e] + tail, why, now, t)
  {
    var r := Sweep(tail, c.maxConcurrent - s.active, why, now);
    SweepPassed(e, tail, c.maxConcurrent - s.active, why, now, r);
    assert done + [e] + r.batches == done + ([e] + r.batches);
  }

  lemma SweepPassed(e: Entry, tail: seq<Entry>, free: int, why: Trigger, now: int, r: Swept)
    requires !(Due(e, why, now) && free > 0) && r == Sweep(tail, free, why, now)
    ensures Sweep([e] + tail, free, why, now) == Swept([e] + r.batches, r.groups, r.taken)
  {
    assert ([e] + tail)[1..] == tail;
  }

  lemma FoundAt(s: State, done: seq<Entry>, e: Entry, tail: seq<Entry>)
    requires BatchesOk(s.room.batches, s.lastId) && s.room.batches == done + [e] + tail
    ensures Find(s.room.batches, e.key) == |done| < |s.room.batches| && s.room.batches[|done|] == e
  {
    assert s.room.batches[|done|] == e;
    FindUnique(s.room.batches, |done|, s.lastId);
  }

  lemma FullStart(c: Config, s: State, category: string, now: int)
    requires Inv(c, s) && s.active >= c.maxConcurrent
    ensures StartBatch(c, s, category, now) == s
  {
    StartBatchCases(c, s, category, now, Find(s.room.batches, category));
  }

  /** A sweep of the aging timer or of a forced reduction is one pass over the map. */
  lemma SweepsOnce(c: Config, s: State, why: Trigger, now: int)
    requires Inv(c, s)
    ensures SweptOnce(c, s, why, now, StartFiring(c, s, Keys(s.room.batches), why, now))
  {
    assert [] + s.room.batches == s.room.batches;
    SweepsRest(c, s, [], s.room.batches, why, now, StartFiring(c, s, Keys(s.room.batches), why, now));
    var r := Sweep(s.room.batches, c.maxConcurrent - s.active, why, now);
    assert [] + r.batches == r.batches;
  }

  // ---------------------------------------------------------------- age cleanup

  /** Waiting for more than one and a half times the queue timeout. */
  predicate OverAge(since: int, now: int, timeoutMs: nat) {
    (now - since) as real > timeoutMs as real * 1.5
  }

  lemma OverAgeIsTooOld(since: int, now: int, timeoutMs: nat)
    ensures OverAge(since, now, timeoutMs) <==> TooOld(since, now, timeoutMs)
  {
  }

  /** `kept` are the tasks within age, in order; `out` the others, from the back. */
  ghost predicate SplitByAge(ts: seq<Task>, now: int, timeoutMs: nat, kept: seq<Task>, out: seq<Task>) {
    && Picks(ts, (t: Task) => !OverAge(t.timestamp, now, timeoutMs), kept)
    && Picks(ts, (t: Task) => OverAge(t.timestamp, now, timeoutMs), Reversed(out))
  }

  lemma ReversedCons(x: Task, ts: seq<Task>)
    ensures Reversed([x] + ts) == Reversed(ts) + [x]
  {
    assert ([x] + ts)[1..] == ts;
  }

  lemma {:induction false} QueueKeepsYoung(ts: seq<Task>, now: int, timeoutMs: nat, young: Task -> bool)
    requires forall t :: young(t) <==> !OverAge(t.timestamp, now, timeoutMs)
    ensures Picks(ts, young, Young(ts, now, timeoutMs))
  {
    if ts == [] {
      PicksNone(young);
    } else {
      var init, x := ts[..|ts| - 1], ts[|ts| - 1];
      QueueKeepsYoung(init, now, timeoutMs, young);
      YoungNext(ts, now, timeoutMs, young, Young(init, now, timeoutMs));
    }
  }

  lemma YoungNext(ts: seq<Task>, now: int, timeoutMs: nat, young: Task -> bool, y: seq<Task>)
    requires ts != [] && y == Young(ts[..|ts| - 1], now, timeoutMs) && Picks(ts[..|ts| - 1], young, y)
    requires young(ts[|ts| - 1]) <==> !OverAge(ts[|ts| - 1].timestamp, now, timeoutMs)
    ensures Picks(ts, young, Young(ts, now, timeoutMs))
  {
    OverAgeIsTooOld(ts[|ts| - 1].timestamp, now, timeoutMs);
    var x := ts[|ts| - 1];
    PicksLast(ts, ts[..|ts| - 1], x, young, y, if young(x) then y + [x] else y);
    assert y + [] == y;
  }

  lemma {:induction false} QueueDropsAged(ts: seq<Task>, now: int, timeoutMs: nat, aged: Task -> bool)
    requires forall t :: aged(t) <==> OverAge(t.timestamp, now, timeoutMs)
    ensures Picks(ts, aged, Reversed(Expired(ts, now, timeoutMs)))
  {
    if ts == [] {
      PicksNone(aged);
    } else {
      var init := ts[..|ts| - 1];
      QueueDropsAged(init, now, timeoutMs, aged);
      AgedNext(ts, now, timeoutMs, aged, Expired(init, now, timeoutMs));
    }
  }

  lemma AgedNext(ts: seq<Task>, now: int, timeoutMs: nat, aged: Task -> bool, e: seq<Task>)
    requires ts != [] && e == Expired(ts[..|ts| - 1], now, timeoutMs) && Picks(ts[..|ts| - 1], aged, Reversed(e))
    requires aged(ts[|ts| - 1]) <==> OverAge(ts[|ts| - 1].timestamp, now, timeoutMs)
    ensures Picks(ts, aged, Reversed(Expired(ts, now, timeoutMs)))
  {
    var x := ts[|ts| - 1];
    OverAgeIsTooOld(x.timestamp, now, timeoutMs);
    PicksLast(ts, ts[..|ts| - 1], x, aged, Reversed(e), if aged(x) then Reversed(e) + [x] else Reversed(e));
    ReversedCons(x, e);
    assert [] + e == e;
  }

  lemma QueueSplits(ts: seq<Task>, now: int, timeoutMs: nat)
    ensures SplitByAge(ts, now, timeoutMs, Young(ts, now, timeoutMs), Expired(ts, now, timeoutMs))
  {
    QueueKeepsYoung(ts, now, timeoutMs, (t: Task) => !OverAge(t.timestamp, now, timeoutMs));
    QueueDropsAged(ts, now, timeoutMs, (t: Task) => OverAge(t.timestamp, now, timeoutMs));
  }

  function AllTasks(bs: seq<Entry>): seq<Task> {
    if bs == [] then [] else bs[0].batch.tasks + AllTasks(bs[1..])
  }

  /** `kept` are the batches within age, whole and unchanged; `out` the tasks of the others. */
  ghost predicate BatchesSplitByAge(bs: seq<Entry>, now: int, timeoutMs: nat, kept: seq<Entry>, out: seq<Task>) {
    && Picks(bs, (e: Entry) => !OverAge(e.batch.createdAt, now, timeoutMs), kept)
    && exists gone :: Picks(bs, (e: Entry) => OverAge(e.batch.createdAt, now, timeoutMs), gone) && out == AllTasks(gone)
  }

  lemma {:induction false} BatchesByAge(bs: seq<Entry>, now: int, timeoutMs: nat) returns (gone: seq<Entry>)
    ensures Picks(bs, (e: Entry) => !OverAge(e.batch.createdAt, now, timeoutMs), YoungBatches(bs, now, timeoutMs))
    ensures Picks(bs, (e: Entry) => OverAge(e.batch.createdAt, now, timeoutMs), gone)
    ensures ExpiredBatches(bs, now, timeoutMs) == AllTasks(gone)
  {
    var young, aged :=
      (e: Entry) => !OverAge(e.batch.createdAt, now, timeoutMs),
      (e: Entry) => OverAge(e.batch.createdAt, now, timeoutMs);
    if bs == [] {
      gone := [];
      PicksNone(young);
      PicksNone(aged);
    } else {
      var x, tail := bs[0], bs[1..];
      var g := BatchesByAge(tail, now, timeoutMs);
      OverAgeIsTooOld(x.batch.createdAt, now, timeoutMs);
      PicksCons(x, tail, young, YoungBatches(tail, now, timeoutMs));
      PicksCons(x, tail, aged, g);
      gone := if aged(x) then [x] + g else g;
      assert bs == [x] + tail && ([x] + g)[1..] == g;
      assert [] + YoungBatches(tail, now, timeoutMs) == YoungBatches(tail, now, timeoutMs);
      assert [] + ExpiredBatches(tail, now, timeoutMs) == ExpiredBatches(tail, now, timeoutMs);
    }
  }

  /** What the cleanup leaves and what it rejects, queue by queue, and that nothing else changes. */
  ghost predicate CleanedByAge(
    c: Config, s: State, now: int, s': State, high: seq<Task>, normal: seq<Task>, low: seq<Task>, batched: seq<Task>)
  {
    && SplitByAge(s.room.high, now, c.taskTimeoutMs, s'.room.high, high)
    && SplitByAge(s.room.normal, now, c.taskTimeoutMs, s'.room.normal, normal)
    && SplitByAge(s.room.low, now, c.taskTimeoutMs, s'.room.low, low)
    && BatchesSplitByAge(s.room.batches, now, c.taskTimeoutMs, s'.room.batches, batched)
    && s' == s.(room := s'.room,
                stats := Stats(s.stats.processed, s.stats.rejected,
                               s.stats.timeout + |high| + |normal| + |low| + |batched|),
                log := Log(s.log.accepted, s.log.resolved, s.log.rejected,
                           s.log.timedOut + (high + normal + low + batched)))
  }

  ghost predicate IsCleaned(c: Config, s: State, now: int, s': State) {
    exists high, normal, low, batched :: CleanedByAge(c, s, now, s', high, normal, low, batched)
  }

  lemma CleansByAge(c: Config, s: State, now: int)
    ensures IsCleaned(c, s, now, Cleanup(c, s, now))
  {
    QueueSplits(s.room.high, now, c.taskTimeoutMs);
    QueueSplits(s.room.normal, now, c.taskTimeoutMs);
    QueueSplits(s.room.low, now, c.taskTimeoutMs);
    var gone := BatchesByAge(s.room.batches, now, c.taskTimeoutMs);
    var h, n := Expired(s.room.high, now, c.taskTimeoutMs), Expired(s.room.normal, now, c.taskTimeoutMs);
    var l, b := Expired(s.room.low, now, c.taskTimeoutMs), ExpiredBatches(s.room.batches, now, c.taskTimeoutMs);
    assert CleanedByAge(c, s, now, Cleanup(c, s, now), h, n, l, b);
  }

  // ---------------------------------------------------------------- the memory check

  lemma {:induction false} TailFirstReverses(ts: seq<Task>)
    ensures Reversed(TailFirst(ts)) == ts
  {
    if ts != [] {
      var init, x := ts[..|ts| - 1], ts[|ts| - 1];
      TailFirstReverses(init);
      ReversedCons(x, TailFirst(init));
      assert ts == init + [x];
    }
  }

  /** The newer half of the low queue, rounded down, is rejected from the back; the older half stays. */
  ghost predicate HalvedLow(s: State, s': State, out: seq<Task>) {
    && s'.room.low + Reversed(out) == s.room.low && |out| == |s.room.low| / 2
    && s' == s.(room := s.room.(low := s'.room.low),
                stats := Stats(s.stats.processed, s.stats.rejected + |out|, s.stats.timeout),
                log := Log(s.log.accepted, s.log.resolved, s.log.rejected + out, s.log.timedOut))
  }

  lemma Halves(s: State) returns (out: seq<Task>)
    ensures HalvedLow(s, DropNewest(s), out)
  {
    var k := |s.room.low| - |s.room.low| / 2;
    out := TailFirst(s.room.low[k..]);
    TailFirstTimes(s.room.low[k..], ANY);
    TailFirstReverses(s.room.low[k..]);
    assert s.room.low[..k] + s.room.low[k..] == s.room.low;
  }

  /** Up to three quarters of the heap: no pressure, nothing cleaned, low tasks get a pass. */
  lemma MemoryRelaxed(c: Config, s: State, usage: real, gc: bool, now: int)
    requires usage <= 0.75
    ensures Step(c, s, MemoryTick(usage, gc, now)) == s.(pressure := false, pending := s.pending || s.room.low != [])
  {
  }

  /** Above three quarters: pressure, and a cleanup by age; that is all up to nine tenths or without the collector. */
  lemma MemoryPressed(c: Config, s: State, usage: real, gc: bool, now: int)
    requires usage > 0.75 && (usage <= 0.9 || !gc)
    ensures IsCleaned(c, s.(pressure := true), now, Step(c, s, MemoryTick(usage, gc, now)))
  {
    CleansByAge(c, s.(pressure := true), now);
    assert Step(c, s, MemoryTick(usage, gc, now)) == Cleanup(c, s.(pressure := true), now);
  }

  /** `t` is `s` after one pass over its map. */
  ghost predicate SweptOnce(c: Config, s: State, why: Trigger, now: int, t: State) {
    var r := Sweep(s.room.batches, c.maxConcurrent - s.active, why, now);
    t == Opened(s, r.batches, r.groups, r.taken)
  }

  lemma MemorySteps(c: Config, s: State, usage: real, gc: bool, now: int, s1: State, s2: State)
    requires usage > 0.9 && gc && s1 == Cleanup(c, s.(pressure := true), now) && s2 == DropNewest(s1)
    ensures Step(c, s, MemoryTick(usage, gc, now)) == StartFiring(c, s2, Keys(s2.room.batches), Heavy, now)
  {
  }

  /** Above nine tenths: then the newer half of the low queue is rejected, and heavy batches start. */
  lemma MemoryForced(c: Config, s: State, usage: real, gc: bool, now: int)
    returns (s1: State, s2: State, out: seq<Task>)
    requires Inv(c, s) && usage > 0.9 && gc
    ensures IsCleaned(c, s.(pressure := true), now, s1)
    ensures HalvedLow(s1, s2, out)
    ensures SweptOnce(c, s2, Heavy, now, Step(c, s, MemoryTick(usage, gc, now)))
  {
    s1 := Cleanup(c, s.(pressure := true), now);
    s2 := DropNewest(s1);
    CleansByAge(c, s.(pressure := true), now);
    out := Halves(s1);
    assert Inv(c, s2) by {
      PressureKeeps(c, s, true);
      CleanupKeeps(c, s.(pressure := true), now);
      DropNewestKeeps(c, s1);
    }
    SweepsOnce(c, s2, Heavy, now);
    MemorySteps(c, s, usage, gc, now, s1, s2);
  }

  /** The aging timer sweeps once over the batches at least one and a half seconds old. */
  lemma AgingSweeps(c: Config, s: State, now: int)
    requires Inv(c, s)
    ensures SweptOnce(c, s, Aged, now, Step(c, s, AgingTick(now)))
  {
    SweepsOnce(c, s, Aged, now);
    assert Step(c, s, AgingTick(now)) == StartFiring(c, s, Keys(s.room.batches), Aged, now);
  }

  // ---------------------------------------------------------------- what one pass over the map does

  function DueTasks(bs: seq<Entry>, why: Trigger, now: int): seq<Task> {
    if bs == [] then [] else (if Due(bs[0], why, now) then bs[0].batch.tasks else []) + DueTasks(bs[1..], why, now)
  }

  function GroupTasks(gs: seq<Group>): seq<Task> {
    if gs == [] then [] else gs[0].running + GroupTasks(gs[1..])
  }

  /** A sweep takes the tasks of the due batches in map order, as many as slots are free. */
  lemma {:induction false} SweepTakes(bs: seq<Entry>, free: nat, why: Trigger, now: int)
    ensures
      var r := Sweep(bs, free, why, now);
      var due := DueTasks(bs, why, now);
      && r.taken == Min(free, |due|)
      && GroupTasks(r.groups) == due[..r.taken]
  {
    if bs != [] {
      var e, tail := bs[0], bs[1..];
      var due := DueTasks(tail, why, now);
      if Due(e, why, now) && Sends(e, free) > 0 {
        var k := Sends(e, free);
        var r := Sweep(tail, free - k, why, now);
        SweepTakes(tail, free - k, why, now);
        assert ([Started(e, k)] + r.groups)[1..] == r.groups;
        PrefixOfTwo(e.batch.tasks, due, k, r.taken);
      } else {
        SweepTakes(tail, free, why, now);
        assert [] + due == due;
        if Due(e, why, now) && e.batch.tasks != [] { assert free == 0; }
        assert e.batch.tasks == [] ==> e.batch.tasks + due == due;
      }
    }
  }

  lemma PrefixOfTwo(a: seq<Task>, b: seq<Task>, k: nat, n: nat)
    requires k <= |a| && n <= |b| && (n > 0 ==> k == |a|)
    ensures (a + b)[..k + n] == a[..k] + b[..n]
  {
  }
}
