/** The scheduler's invariant and the proof that each building block keeps it. */
module SchedulerInv {
  import opened Tasks
  import opened Queues
  import opened WorkerPool
  import opened SchedulerSpec

  // ---------------------------------------------------------------- sums over open batch groups

  ghost function RunningTimes(gs: seq<Group>, t: Task): nat {
    if gs == [] then 0 else Times(gs[0].running, t) + RunningTimes(gs[1..], t)
  }

  ghost function GroupSlots(gs: seq<Group>): nat {
    if gs == [] then 0 else gs[0].count + GroupSlots(gs[1..])
  }

  ghost function OpenProcessed(gs: seq<Group>): nat {
    if gs == [] then 0 else gs[0].processed + OpenProcessed(gs[1..])
  }

  ghost function OpenFailed(gs: seq<Group>): nat {
    if gs == [] then 0 else gs[0].failed + OpenFailed(gs[1..])
  }

  lemma {:induction false} GroupsAppend(a: seq<Group>, b: seq<Group>, t: Task)
    ensures RunningTimes(a + b, t) == RunningTimes(a, t) + RunningTimes(b, t)
    ensures GroupSlots(a + b) == GroupSlots(a) + GroupSlots(b)
    ensures OpenProcessed(a + b) == OpenProcessed(a) + OpenProcessed(b)
    ensures OpenFailed(a + b) == OpenFailed(a) + OpenFailed(b)
  {
    if a == [] {
      assert a + b == b;
    } else {
      assert (a + b)[1..] == a[1..] + b;
      GroupsAppend(a[1..], b, t);
    }
  }

  lemma GroupsOne(g: Group, t: Task)
    ensures RunningTimes([g], t) == Times(g.running, t) && GroupSlots([g]) == g.count
    ensures OpenProcessed([g]) == g.processed && OpenFailed([g]) == g.failed
  {
    assert [g][1..] == [];
  }

  lemma GroupsSplit(gs: seq<Group>, g: nat, rest: seq<Group>, t: Task)
    requires g < |gs| && rest == gs[..g] + gs[g + 1..]
    ensures RunningTimes(gs, t) == RunningTimes(rest, t) + Times(gs[g].running, t)
    ensures GroupSlots(gs) == GroupSlots(rest) + gs[g].count
    ensures OpenProcessed(gs) == OpenProcessed(rest) + gs[g].processed
    ensures OpenFailed(gs) == OpenFailed(rest) + gs[g].failed
  {
    var a, b := gs[..g], gs[g + 1..];
    assert gs == a + ([gs[g]] + b);
    GroupsAppend(a, [gs[g]] + b, t);
    GroupsAppend([gs[g]], b, t);
    GroupsOne(gs[g], t);
    GroupsAppend(a, b, t);
  }

  lemma GroupsReplace(gs: seq<Group>, g: nat, x: Group, rest: seq<Group>, t: Task)
    requires g < |gs| && rest == gs[..g] + gs[g + 1..]
    ensures RunningTimes(gs[g := x], t) == RunningTimes(rest, t) + Times(x.running, t)
    ensures GroupSlots(gs[g := x]) == GroupSlots(rest) + x.count
    ensures OpenProcessed(gs[g := x]) == OpenProcessed(rest) + x.processed
    ensures OpenFailed(gs[g := x]) == OpenFailed(rest) + x.failed
  {
    var gs' := gs[g := x];
    assert rest == gs'[..g] + gs'[g + 1..];
    GroupsSplit(gs', g, rest, t);
  }

  // ---------------------------------------------------------------- the invariant

  /** In how many places `t` waits or runs. */
  ghost function PlacedTimes(s: State, t: Task): nat {
    RoomTimes(s.room, t) + Times(s.inline, t) + RunningTimes(s.groups, t) + PoolTimes(s.pool, t)
  }

  /** How often `t` was resolved or rejected. */
  ghost function SettledTimes(l: Log, t: Task): nat {
    Times(l.resolved, t) + Times(l.rejected, t) + Times(l.timedOut, t)
  }

  /** No task is lost, duplicated or settled twice. */
  ghost predicate Conserved(s: State) {
    forall t :: PlacedTimes(s, t) + SettledTimes(s.log, t) == Times(s.log.accepted, t)
  }

  ghost function Slots(s: State): nat {
    |s.inline| + |s.unreleased| + GroupSlots(s.groups) + Held(s.pool)
  }

  ghost predicate SlotsOk(c: Config, s: State) {
    s.active == Slots(s) <= c.maxConcurrent
  }

  ghost predicate GroupsOk(gs: seq<Group>) {
    forall g :: 0 <= g < |gs| ==> gs[g].count == |gs[g].running| + gs[g].processed + gs[g].failed
  }

  ghost predicate StatsOk(c: Config, s: State) {
    && s.stats.processed + OpenProcessed(s.groups) == c.restored.processed + |s.log.resolved|
    && s.stats.rejected + OpenFailed(s.groups) == c.restored.rejected + s.refused + |s.log.rejected|
    && s.stats.timeout == c.restored.timeout + |s.log.timedOut|
  }

  /** Every accepted task is settled, waiting or running. */
  ghost predicate Tallied(s: State) {
    |s.log.accepted| + OpenProcessed(s.groups) + OpenFailed(s.groups)
    == |s.log.resolved| + |s.log.rejected| + |s.log.timedOut|
       + Total(s.room) + |s.inline| + GroupSlots(s.groups) + Held(s.pool)
  }

  ghost predicate IdsOk(c: Config, s: State) {
    && Increasing(s.log.accepted)
    && forall i :: 0 <= i < |s.log.accepted| ==> c.restoredId < s.log.accepted[i].id <= s.lastId
  }

  /** Every queue, batch, group and the pool is well formed. */
  ghost predicate Shape(c: Config, s: State) {
    && RoomInv(s.room, s.lastId)
    && PoolInv(s.pool, c.limits) && |s.pool.busy| == c.workers
    && GroupsOk(s.groups)
    && IdsOk(c, s)
    && (c.useWorkers || s.pool.queue == [])
    && c.restoredId <= s.lastId
    && !s.processing
  }

  /** The numbers agree with each other and stay within their bounds. */
  ghost predicate Books(c: Config, s: State) {
    && SlotsOk(c, s)
    && StatsOk(c, s)
    && Tallied(s)
    && Total(s.room) <= c.overflowThreshold
  }

  /** Everything except the wake-up property. */
  ghost predicate Core(c: Config, s: State) {
    Shape(c, s) && Books(c, s) && Conserved(s)
  }

  /** No lost wake-up: work that could start has a pass scheduled. */
  ghost predicate Awake(c: Config, s: State) {
    Total(s.room) > 0 && s.active < c.maxConcurrent ==> s.pending
  }

  ghost predicate Inv(c: Config, s: State) {
    Core(c, s) && Awake(c, s)
  }

  // ---------------------------------------------------------------- initial state and enqueue

  /** Some task, where a lemma's length clauses are wanted and its task argument does not matter. */
  const ANY := Task(0, 0, "", 0, None, false, 0)

  lemma {:induction false} NoneAssigned(n: nat, k: Workload)
    ensures CountAssigned(map[], n, k) == 0
  {
    if n > 0 { NoneAssigned(n - 1, k); }
  }

  lemma {:induction false} NoneHeld(n: nat, t: Task)
    ensures AssignedTimes(map[], n, t) == 0
  {
    if n > 0 { NoneHeld(n - 1, t); }
  }

  lemma InitialPool(c: Config)
    requires ValidConfig(c)
    ensures PoolInv(Initial(c).pool, c.limits)
  {
    forall k ensures CountAssigned(map[], c.workers, k) == 0 { NoneAssigned(c.workers, k); }
  }

  lemma InitialInv(c: Config)
    requires ValidConfig(c)
    ensures Inv(c, Initial(c))
  {
    var s := Initial(c);
    InitialPool(c);
    forall t ensures PlacedTimes(s, t) == 0 { NoneHeld(c.workers, t); }
  }

  lemma AdmitConserves(s: State, x: Task, room: Room)
    requires Conserved(s)
    requires forall t :: RoomTimes(room, t) == RoomTimes(s.room, t) + if x == t then 1 else 0
    ensures Conserved(Admit(s, x, room))
  {
    var s' := Admit(s, x, room);
    forall t ensures PlacedTimes(s', t) + SettledTimes(s'.log, t) == Times(s'.log.accepted, t) {
      TimesSnoc(s.log.accepted, x, t);
      assert RoomTimes(room, t) == RoomTimes(s.room, t) + if x == t then 1 else 0;
    }
  }

  lemma AdmitIds(c: Config, s: State, x: Task, room: Room)
    requires IdsOk(c, s) && x.id == s.lastId + 1 && c.restoredId <= s.lastId
    ensures IdsOk(c, Admit(s, x, room))
  {
  }

  lemma AdmitKeeps(c: Config, s: State, x: Task, room: Room)
    requires Inv(c, s) && x.id == s.lastId + 1
    requires RoomInv(room, s.lastId + 1) && Total(room) == Total(s.room) + 1 <= c.overflowThreshold
    requires Conserved(Admit(s, x, room))
    ensures Inv(c, Admit(s, x, room))
  {
    var s' := Admit(s, x, room);
    assert s'.pool == s.pool && s'.groups == s.groups && s'.room == room;
    AdmitIds(c, s, x, room);
  }

  lemma RefuseKeeps(c: Config, s: State)
    requires Inv(c, s)
    ensures Inv(c, Refused(s))
  {
    var s' := Refused(s);
    forall t ensures PlacedTimes(s', t) == PlacedTimes(s, t) {}
  }

  lemma PlacedKeeps(c: Config, s: State, x: Task, batch: bool, now: int)
    requires Inv(c, s) && x.id == s.lastId + 1 && x.size > 0 && x.category != ""
    requires Total(s.room) < c.overflowThreshold
    ensures Inv(c, Admit(s, x, Place(s.room, x, batch, now)))
  {
    var room := Place(s.room, x, batch, now);
    assert Conserved(Admit(s, x, room)) by {
      forall t ensures RoomTimes(room, t) == RoomTimes(s.room, t) + if x == t then 1 else 0 {
        PlaceTimes(s.room, x, batch, now, t);
      }
      AdmitConserves(s, x, room);
    }
    assert RoomInv(room, s.lastId + 1) by { PlaceKeeps(s.room, x, batch, now, s.lastId); }
    assert Total(room) == Total(s.room) + 1 by { PlaceTimes(s.room, x, batch, now, x); }
    AdmitKeeps(c, s, x, room);
  }

  lemma EnqueueKeeps(c: Config, s: State, o: Request, now: int)
    requires Inv(c, s)
    ensures Inv(c, Enqueue(c, s, o, now))
  {
    match Admission(c, s, o)
    case BadOption =>
    case Overloaded => RefuseKeeps(c, s);
    case Full => RefuseKeeps(c, s);
    case Accepted => PlacedKeeps(c, s, NewTask(s, o, now), o.batch, now);
  }

  // ---------------------------------------------------------------- the pass

  lemma {:induction false} PartsTyped(c: Config, ts: seq<Task>)
    ensures |ts| == |ForInline(c, ts)| + |ForWorkers(c, ts)|
    ensures forall i :: 0 <= i < |ForWorkers(c, ts)| ==> Typed(ItemFor(ForWorkers(c, ts)[i]))
    ensures !c.useWorkers ==> ForWorkers(c, ts) == []
  {
    if ts != [] { PartsTyped(c, ts[..|ts| - 1]); }
  }

  lemma {:induction false} PartsTimes(c: Config, ts: seq<Task>, t: Task)
    ensures Times(ts, t) == Times(ForInline(c, ts), t) + Times(ForWorkers(c, ts), t)
  {
    if ts != [] {
      var init, x := ts[..|ts| - 1], ts[|ts| - 1];
      assert ts == init + [x];
      PartsTimes(c, init, t);
      TimesSnoc(init, x, t);
      TimesSnoc(ForInline(c, init), x, t);
      TimesSnoc(ForWorkers(c, init), x, t);
      assert ForInline(c, init) + [] == ForInline(c, init);
      assert ForWorkers(c, init) + [] == ForWorkers(c, init);
    }
  }

  lemma TakeConserves(c: Config, s: State, k: nat)
    requires Conserved(s) && k <= |Offered(s.room, s.pressure)|
    ensures Conserved(Take(c, s, k))
  {
    var taken := Offered(s.room, s.pressure)[..k];
    var s' := Take(c, s, k);
    forall t ensures PlacedTimes(s', t) + SettledTimes(s'.log, t) == Times(s'.log.accepted, t) {
      ShiftedTimes(s.room, s.pressure, k, t);
      PartsTimes(c, taken, t);
      TimesAppend(s.inline, ForInline(c, taken), t);
      AddAllTimes(s.pool, ForWorkers(c, taken), t);
    }
  }

  lemma TakeKeeps(c: Config, s: State, k: nat)
    requires Core(c, s) && k <= |Offered(s.room, s.pressure)| && s.active + k <= c.maxConcurrent
    ensures Core(c, Take(c, s, k))
  {
    var taken := Offered(s.room, s.pressure)[..k];
    TakeConserves(c, s, k);
    ShiftedKeeps(s.room, s.pressure, k, s.lastId);
    ShiftedTimes(s.room, s.pressure, k, ANY);
    PartsTyped(c, taken);
    AddAllKeeps(s.pool, ForWorkers(c, taken), c.limits);
  }

  lemma SendWorkConserves(c: Config, s: State, failing: set<nat>)
    requires Core(c, s)
    ensures Conserved(SendWork(c, s, failing))
  {
    if c.useWorkers && s.pool.queue != [] {
      var r := Dispatch(s.pool, c.limits, failing);
      var s' := SendWork(c, s, failing);
      forall t ensures PlacedTimes(s', t) + SettledTimes(s'.log, t) == Times(s'.log.accepted, t) {
        DispatchTimes(s.pool, 0, |s.pool.busy|, c.limits, failing, t);
        TimesAppend(s.log.rejected, r.failed, t);
      }
    }
  }

  lemma SendWorkKeeps(c: Config, s: State, failing: set<nat>)
    requires Core(c, s)
    ensures Core(c, SendWork(c, s, failing))
    ensures Awake(c, s) ==> Awake(c, SendWork(c, s, failing))
  {
    SendWorkConserves(c, s, failing);
    DispatchKeeps(s.pool, 0, |s.pool.busy|, c.limits, failing);
  }

  lemma EndPassKeeps(c: Config, s: State, toWorkers: bool, failing: set<nat>)
    requires Core(c, s)
    ensures Inv(c, EndPass(c, s, toWorkers, failing))
  {
    if toWorkers { SendWorkKeeps(c, s, failing); }
    WakeIfNeededKeeps(c, if toWorkers then SendWork(c, s, failing) else s);
  }

  lemma WakeIfNeededKeeps(c: Config, s: State)
    requires Core(c, s)
    ensures Inv(c, WakeIfNeeded(c, s))
  {
    var s' := WakeIfNeeded(c, s);
    forall t ensures PlacedTimes(s', t) == PlacedTimes(s, t) {}
  }

  lemma ProcessQueueKeeps(c: Config, s: State, failing: set<nat>)
    requires Core(c, s)
    ensures Inv(c, ProcessQueue(c, s, failing))
  {
    if s.active < c.maxConcurrent {
      var k := PassSize(c, s);
      TakeKeeps(c, s, k);
      EndPassKeeps(c, Take(c, s, k), ForWorkers(c, Offered(s.room, s.pressure)[..k]) != [], failing);
    }
  }

  // ---------------------------------------------------------------- settling and releasing

  lemma InlineSettleKeeps(c: Config, s: State, i: nat, ok: bool)
    requires Inv(c, s)
    ensures Inv(c, InlineSettle(s, i, ok))
  {
    if i < |s.inline| {
      var s' := InlineSettle(s, i, ok);
      forall t ensures PlacedTimes(s', t) + SettledTimes(s'.log, t) == Times(s'.log.accepted, t) {
        TimesSplice(s.inline, i, t);
        TimesSnoc(s.log.resolved, s.inline[i], t);
        TimesSnoc(s.log.rejected, s.inline[i], t);
      }
    }
  }

  lemma InlineReleaseKeeps(c: Config, s: State, i: nat)
    requires Inv(c, s)
    ensures Inv(c, InlineRelease(s, i))
  {
    if i < |s.unreleased| {
      var s' := InlineRelease(s, i);
      forall t ensures PlacedTimes(s', t) + SettledTimes(s'.log, t) == Times(s'.log.accepted, t) {
        assert PlacedTimes(s', t) == PlacedTimes(s, t);
      }
    }
  }

  lemma GroupSettleConserves(c: Config, s: State, g: nat, i: nat, ok: bool)
    requires Conserved(s) && g < |s.groups| && i < |s.groups[g].running|
    ensures Conserved(GroupSettle(s, g, i, ok))
  {
    var s' := GroupSettle(s, g, i, ok);
    var rest := s.groups[..g] + s.groups[g + 1..];
    var x := s.groups[g].running[i];
    forall t ensures PlacedTimes(s', t) + SettledTimes(s'.log, t) == Times(s'.log.accepted, t) {
      GroupsSplit(s.groups, g, rest, t);
      GroupsReplace(s.groups, g, s'.groups[g], rest, t);
      TimesSplice(s.groups[g].running, i, t);
      TimesSnoc(s.log.resolved, x, t);
      TimesSnoc(s.log.rejected, x, t);
    }
  }

  lemma GroupReplaceSums(gs: seq<Group>, g: nat, x: Group)
    requires g < |gs| && GroupsOk(gs)
    requires x.count == gs[g].count == |x.running| + x.processed + x.failed
    ensures GroupsOk(gs[g := x])
    ensures GroupSlots(gs[g := x]) == GroupSlots(gs)
    ensures OpenProcessed(gs[g := x]) == OpenProcessed(gs) + x.processed - gs[g].processed
    ensures OpenFailed(gs[g := x]) == OpenFailed(gs) + x.failed - gs[g].failed
  {
    var rest := gs[..g] + gs[g + 1..];
    GroupsSplit(gs, g, rest, ANY);
    GroupsReplace(gs, g, x, rest, ANY);
  }

  lemma GroupSettleKeeps(c: Config, s: State, g: nat, i: nat, ok: bool)
    requires Inv(c, s)
    ensures Inv(c, GroupSettle(s, g, i, ok))
  {
    if g < |s.groups| && i < |s.groups[g].running| {
      var s' := GroupSettle(s, g, i, ok);
      GroupSettleConserves(c, s, g, i, ok);
      GroupReplaceSums(s.groups, g, Tally(s.groups[g], i, ok));
      assert s'.log.accepted == s.log.accepted && s'.room == s.room && s'.pool == s.pool;
    }
  }

  lemma GroupFinishConserves(s: State, g: nat)
    requires Conserved(s) && g < |s.groups| && s.groups[g].running == []
    ensures Conserved(GroupFinish(s, g))
  {
    var s' := GroupFinish(s, g);
    forall t ensures PlacedTimes(s', t) + SettledTimes(s'.log, t) == Times(s'.log.accepted, t) {
      GroupsSplit(s.groups, g, s'.groups, t);
    }
  }

  lemma GroupFinishSums(gs: seq<Group>, g: nat, rest: seq<Group>)
    requires g < |gs| && rest == gs[..g] + gs[g + 1..] && GroupsOk(gs)
    ensures GroupsOk(rest)
    ensures GroupSlots(gs) == GroupSlots(rest) + gs[g].count
    ensures OpenProcessed(gs) == OpenProcessed(rest) + gs[g].processed
    ensures OpenFailed(gs) == OpenFailed(rest) + gs[g].failed
  {
    GroupsSplit(gs, g, rest, ANY);
  }

  lemma GroupFinishKeeps(c: Config, s: State, g: nat)
    requires Inv(c, s)
    ensures Inv(c, GroupFinish(s, g))
  {
    if g < |s.groups| && s.groups[g].running == [] {
      var s' := GroupFinish(s, g);
      GroupFinishConserves(s, g);
      GroupFinishSums(s.groups, g, s'.groups);
      assert s'.log == s.log && s'.room == s.room && s'.pool == s.pool;
    }
  }

  lemma SettleConserves(c: Config, s: State, i: nat, ok: bool)
    requires Core(c, s) && i < |s.pool.busy|
    ensures Conserved(Settle(s, i, ok))
  {
    ReleaseKeeps(s.pool, i, c.limits);
    var s' := Settle(s, i, ok);
    forall t ensures PlacedTimes(s', t) + SettledTimes(s'.log, t) == Times(s'.log.accepted, t) {
      if i in s.pool.jobs {
        ReleaseTimes(s.pool, i, t);
        TimesSnoc(s.log.resolved, s.pool.jobs[i].task, t);
        TimesSnoc(s.log.rejected, s.pool.jobs[i].task, t);
      }
    }
  }

  lemma SettleBooks(c: Config, s: State, i: nat, ok: bool)
    requires Books(c, s) && i < |s.pool.busy|
    requires Held(s.pool) == Held(Release(s.pool, i)) + if i in s.pool.jobs then 1 else 0
    ensures Books(c, Settle(s, i, ok))
  {
  }

  lemma SettleShape(c: Config, s: State, i: nat, ok: bool)
    requires Shape(c, s) && i < |s.pool.busy| && PoolInv(Release(s.pool, i), c.limits)
    ensures Shape(c, Settle(s, i, ok))
  {
  }

  lemma SettleKeeps(c: Config, s: State, i: nat, ok: bool)
    requires Inv(c, s) && i < |s.pool.busy|
    ensures Inv(c, Settle(s, i, ok))
  {
    ReleaseKeeps(s.pool, i, c.limits);
    SettleConserves(c, s, i, ok);
    SettleBooks(c, s, i, ok);
    SettleShape(c, s, i, ok);
  }

  // ---------------------------------------------------------------- batches

  lemma OpenGroupSums(gs: seq<Group>, g: Group)
    requires GroupsOk(gs) && g.count == |g.running| && g.processed == g.failed == 0
    ensures GroupsOk(gs + [g])
    ensures GroupSlots(gs + [g]) == GroupSlots(gs) + g.count
    ensures OpenProcessed(gs + [g]) == OpenProcessed(gs) && OpenFailed(gs + [g]) == OpenFailed(gs)
  {
    GroupsAppend(gs, [g], ANY);
    GroupsOne(g, ANY);
  }

  lemma OpenGroupConserves(s: State, bs: seq<Entry>, g: Group)
    requires Conserved(s)
    requires forall t :: BatchTimes(s.room.batches, t) == BatchTimes(bs, t) + Times(g.running, t)
    ensures Conserved(OpenGroup(s, bs, g))
  {
    var s' := OpenGroup(s, bs, g);
    forall t ensures PlacedTimes(s', t) + SettledTimes(s'.log, t) == Times(s'.log.accepted, t) {
      GroupsAppend(s.groups, [g], t);
      GroupsOne(g, t);
      assert BatchTimes(s.room.batches, t) == BatchTimes(bs, t) + Times(g.running, t);
    }
  }

  lemma OpenGroupKeeps(c: Config, s: State, bs: seq<Entry>, g: Group)
    requires Inv(c, s) && g.count == |g.running| && g.processed == g.failed == 0
    requires s.active + g.count <= c.maxConcurrent
    requires BatchesOk(bs, s.lastId) && BatchCount(s.room.batches) == BatchCount(bs) + g.count
    requires Conserved(OpenGroup(s, bs, g))
    ensures Inv(c, OpenGroup(s, bs, g))
  {
    OpenGroupSums(s.groups, g);
    OpenGroupBooks(c, s, bs, g);
    OpenGroupShape(c, s, bs, g);
  }

  lemma OpenGroupBooks(c: Config, s: State, bs: seq<Entry>, g: Group)
    requires Books(c, s) && s.active + g.count <= c.maxConcurrent
    requires BatchCount(s.room.batches) == BatchCount(bs) + g.count
    requires GroupSlots(s.groups + [g]) == GroupSlots(s.groups) + g.count
    requires OpenProcessed(s.groups + [g]) == OpenProcessed(s.groups)
    requires OpenFailed(s.groups + [g]) == OpenFailed(s.groups)
    ensures Books(c, OpenGroup(s, bs, g))
  {
  }

  lemma OpenGroupShape(c: Config, s: State, bs: seq<Entry>, g: Group)
    requires Shape(c, s) && BatchesOk(bs, s.lastId) && GroupsOk(s.groups + [g])
    ensures Shape(c, OpenGroup(s, bs, g))
  {
  }

  /** Moving the first `k` tasks of entry `j` into a group. */
  lemma OpenKeeps(c: Config, s: State, j: nat, k: nat, now: int)
    requires Inv(c, s) && j < |s.room.batches| && k <= |s.room.batches[j].batch.tasks|
    requires s.active + k <= c.maxConcurrent
    ensures
      var bs := s.room.batches;
      Inv(c, OpenGroup(s, TakeFromBatch(bs, j, k, now), Group(bs[j].batch.tasks[..k], k, 0, 0)))
  {
    var bs := s.room.batches;
    var bs' := TakeFromBatch(bs, j, k, now);
    var g := Group(bs[j].batch.tasks[..k], k, 0, 0);
    forall t ensures BatchTimes(bs, t) == BatchTimes(bs', t) + Times(g.running, t) {
      TakeFromBatchTimes(bs, j, k, now, s.lastId, t);
    }
    assert Conserved(OpenGroup(s, bs', g)) by { OpenGroupConserves(s, bs', g); }
    assert BatchesOk(bs', s.lastId) by { TakeFromBatchKeeps(bs, j, k, now, s.lastId); }
    assert BatchCount(bs) == BatchCount(bs') + k by { TakeFromBatchTimes(bs, j, k, now, s.lastId, ANY); }
    OpenGroupKeeps(c, s, bs', g);
  }

  lemma StartBatchKeeps(c: Config, s: State, category: string, now: int)
    requires Inv(c, s)
    ensures Inv(c, StartBatch(c, s, category, now))
  {
    var j := Find(s.room.batches, category);
    if j < |s.room.batches| && s.active < c.maxConcurrent {
      var k := Min(|s.room.batches[j].batch.tasks|, c.maxConcurrent - s.active);
      OpenKeeps(c, s, j, k, now);
    }
    StartBatchCases(c, s, category, now, j);
  }

  /** A batch in the map is never empty, so a start does nothing or opens a group. */
  lemma StartBatchCases(c: Config, s: State, category: string, now: int, j: nat)
    requires BatchesOk(s.room.batches, s.lastId) && j == Find(s.room.batches, category)
    ensures
      var bs := s.room.batches;
      StartBatch(c, s, category, now) ==
      if j < |bs| && s.active < c.maxConcurrent then
        var k := Min(|bs[j].batch.tasks|, c.maxConcurrent - s.active);
        OpenGroup(s, TakeFromBatch(bs, j, k, now), Group(bs[j].batch.tasks[..k], k, 0, 0))
      else s
  {
    assert j < |s.room.batches| ==> BatchOk(s.room.batches[j], s.lastId);
  }

  lemma {:induction false} StartFiringKeeps(c: Config, s: State, keys: seq<string>, why: Trigger, now: int)
    requires Inv(c, s)
    ensures Inv(c, StartFiring(c, s, keys, why, now))
    decreases keys
  {
    if keys != [] {
      var j := Find(s.room.batches, keys[0]);
      if j < |s.room.batches| && Fires(why, s.room.batches[j].batch, now) {
        StartBatchKeeps(c, s, keys[0], now);
        StartFiringKeeps(c, StartBatch(c, s, keys[0], now), keys[1..], why, now);
      } else {
        StartFiringKeeps(c, s, keys[1..], why, now);
      }
    }
  }

  // ---------------------------------------------------------------- timeouts and memory pressure

  lemma QueueTimeoutKeeps(c: Config, s: State, x: Task)
    requires Inv(c, s)
    ensures Inv(c, QueueTimeout(s, x))
  {
    if Waiting(s.room, x) {
      var s' := QueueTimeout(s, x);
      forall t ensures PlacedTimes(s', t) + SettledTimes(s'.log, t) == Times(s'.log.accepted, t) {
        RemoveTimes(s.room, x, s.lastId, t);
        TimesSnoc(s.log.timedOut, x, t);
      }
      RemoveKeeps(s.room, x, s.lastId);
      RemoveTimes(s.room, x, s.lastId, x);
    }
  }

  lemma CleanupConserves(c: Config, s: State, now: int)
    requires Conserved(s)
    ensures Conserved(Cleanup(c, s, now))
  {
    var s' := Cleanup(c, s, now);
    forall t ensures PlacedTimes(s', t) + SettledTimes(s'.log, t) == Times(s'.log.accepted, t) {
      CleanedTimes(s.room, now, c.taskTimeoutMs, t);
      TimesAppend(s.log.timedOut, CleanedOut(s.room, now, c.taskTimeoutMs), t);
    }
  }

  lemma CleanupKeeps(c: Config, s: State, now: int)
    requires Inv(c, s)
    ensures Inv(c, Cleanup(c, s, now))
  {
    CleanupConserves(c, s, now);
    CleanedKeeps(s.room, now, c.taskTimeoutMs, s.lastId);
    CleanedTimes(s.room, now, c.taskTimeoutMs, ANY);
  }

  lemma DropNewestConserves(s: State)
    requires Conserved(s)
    ensures Conserved(DropNewest(s))
  {
    var s' := DropNewest(s);
    forall t ensures PlacedTimes(s', t) + SettledTimes(s'.log, t) == Times(s'.log.accepted, t) {
      ReducedTimes(s.room, t);
      TimesAppend(s.log.rejected, TailFirst(s.room.low[Survivors(s.room.low)..]), t);
    }
  }

  lemma DropNewestKeeps(c: Config, s: State)
    requires Inv(c, s)
    ensures Inv(c, DropNewest(s))
  {
    DropNewestConserves(s);
    ReducedKeeps(s.room, s.lastId);
    ReducedTimes(s.room, ANY);
  }

  lemma PressureKeeps(c: Config, s: State, pressure: bool)
    requires Inv(c, s)
    ensures Inv(c, s.(pressure := pressure))
  {
    forall t ensures PlacedTimes(s.(pressure := pressure), t) == PlacedTimes(s, t) {}
  }

  lemma MemoryCheckKeeps(c: Config, s: State, usage: real, gc: bool, now: int)
    requires Inv(c, s)
    ensures Inv(c, MemoryCheck(c, s, usage, gc, now))
  {
    var s1 := s.(pressure := usage > 0.75);
    PressureKeeps(c, s, s1.pressure);
    if s1.pressure {
      CleanupKeeps(c, s1, now);
      var s2 := Cleanup(c, s1, now);
      if usage > 0.9 && gc {
        DropNewestKeeps(c, s2);
        var s3 := DropNewest(s2);
        StartFiringKeeps(c, s3, Keys(s3.room.batches), Heavy, now);
      }
    }
  }

  lemma WorkerResultKeeps(c: Config, s: State, i: nat, ok: bool, failing: set<nat>)
    requires Inv(c, s)
    ensures Inv(c, WorkerResult(c, s, i, ok, failing))
  {
    if i < |s.pool.busy| {
      SettleKeeps(c, s, i, ok);
      SendWorkKeeps(c, Settle(s, i, ok), failing);
    }
  }
}
