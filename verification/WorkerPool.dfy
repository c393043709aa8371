/** The worker-thread pool and its type router (worker-pool.service.ts, worker-task-router.service.ts). */
module WorkerPool {
  import opened Tasks

  /** One number per dispatchable workload type. */
  datatype PerType = PerType(cpu: nat, memory: nat, custom: nat) {
    function At(k: Workload): nat {
      match k
      case Cpu => cpu
      case Memory => memory
      case Custom => custom
      case Unknown => 0
    }

    function Put(k: Workload, n: nat): (r: PerType)
      ensures forall o :: r.At(o) == if o == k && k != Unknown then n else At(o)
    {
      match k
      case Cpu => this.(cpu := n)
      case Memory => this.(memory := n)
      case Custom => this.(custom := n)
      case Unknown => this
    }
  }

  /**
   * `added` and `picked` are histories: every task handed to addTask and every task taken
   * out for sending, in order. The rest are the fields of the two services.
   */
  datatype Pool = Pool(
    queue: seq<WorkItem>, busy: seq<bool>, jobs: map<nat, WorkItem>,
    active: PerType, dropped: nat, added: seq<Task>, picked: seq<Task>)

  // ---------------------------------------------------------------- operations

  datatype Pick = Pick(item: Option<WorkItem>, rest: seq<WorkItem>, dropped: seq<WorkItem>)

  /** isDispatchableType and canDispatchType together. */
  predicate HasRoom(w: WorkItem, active: PerType, limits: PerType) {
    TypeOf(w) != Unknown && active.At(TypeOf(w)) < limits.At(TypeOf(w))
  }

  /** dequeueDispatchableTask: the first item below its type's limit; unknown types met on the way are dropped. */
  function Dequeue(q: seq<WorkItem>, active: PerType, limits: PerType): Pick {
    if q == [] then Pick(None, [], [])
    else
      var k := TypeOf(q[0]);
      if k == Unknown then
        var r := Dequeue(q[1..], active, limits);
        r.(dropped := [q[0]] + r.dropped)
      else if !HasRoom(q[0], active, limits) then
        var r := Dequeue(q[1..], active, limits);
        r.(rest := [q[0]] + r.rest)
      else
        Pick(Some(q[0].(kind := Some(k))), q[1..], [])
  }

  /** A pool after a dispatch, with the tasks rejected on the way (dropped or not sendable). */
  datatype Sent = Sent(pool: Pool, failed: seq<Task>)

  /** The loop body of processWorkerTasks for worker `i`; `failing` are the workers whose postMessage throws. */
  function Offer(p: Pool, i: nat, limits: PerType, failing: set<nat>): (r: Sent)
    requires i < |p.busy|
    ensures |r.pool.busy| == |p.busy|
  {
    if p.busy[i] then Sent(p, [])
    else
      var d := Dequeue(p.queue, p.active, limits);
      var q := p.(queue := d.rest, dropped := p.dropped + |d.dropped|);
      match d.item
      case None => Sent(q, TasksOf(d.dropped))
      case Some(item) =>
        var q' := q.(picked := q.picked + [item.task]);
        if i in failing then
          Sent(q'.(jobs := q'.jobs - {i}), TasksOf(d.dropped) + [item.task])
        else
          var k := TypeOf(item);
          Sent(q'.(busy := q'.busy[i := true],
                   active := q'.active.Put(k, q'.active.At(k) + 1),
                   jobs := q'.jobs[i := item]),
               TasksOf(d.dropped))
  }

  /** processWorkerTasks, workers `i` to `n - 1`. */
  function DispatchRange(p: Pool, i: nat, n: nat, limits: PerType, failing: set<nat>): (r: Sent)
    requires i <= n <= |p.busy|
    ensures |r.pool.busy| == |p.busy|
    decreases n - i
  {
    if i == n then Sent(p, [])
    else
      var o := Offer(p, i, limits, failing);
      var rest := DispatchRange(o.pool, i + 1, n, limits, failing);
      Sent(rest.pool, o.failed + rest.failed)
  }

  function Dispatch(p: Pool, limits: PerType, failing: set<nat>): Sent {
    DispatchRange(p, 0, |p.busy|, limits, failing)
  }

  /** addTask for each of `ts`. */
  function AddAll(p: Pool, ts: seq<Task>): Pool {
    p.(queue := p.queue + ItemsFor(ts), added := p.added + ts)
  }

  /** The pool half of handleWorkerResult: forget the assignment and give the type its slot back. */
  function Release(p: Pool, i: nat): (r: Pool)
    requires i < |p.busy|
    ensures |r.busy| == |p.busy|
  {
    var q := p.(jobs := p.jobs - {i}, busy := p.busy[i := false]);
    if i !in p.jobs then q
    else
      var k := TypeOf(p.jobs[i]);
      q.(active := p.active.Put(k, Max(0, p.active.At(k) - 1)))
  }

  // ---------------------------------------------------------------- invariant

  /** An item as processQueue creates it for an eligible task. */
  ghost predicate Typed(w: WorkItem) {
    && w == ItemFor(w.task)
    && w.task.workload.Some?
    && w.task.workload.value != Unknown
  }

  /** How many of workers 0..n-1 hold a task of type `k`. */
  ghost function CountAssigned(m: map<nat, WorkItem>, n: nat, k: Workload): nat {
    if n == 0 then 0
    else CountAssigned(m, n - 1, k) + (if n - 1 in m && TypeOf(m[n - 1]) == k then 1 else 0)
  }

  /** How many of workers 0..n-1 hold `t`. */
  ghost function AssignedTimes(m: map<nat, WorkItem>, n: nat, t: Task): nat {
    if n == 0 then 0
    else AssignedTimes(m, n - 1, t) + (if n - 1 in m && m[n - 1].task == t then 1 else 0)
  }

  /** How often `t` occurs inside the pool. */
  ghost function PoolTimes(p: Pool, t: Task): nat {
    Times(TasksOf(p.queue), t) + AssignedTimes(p.jobs, |p.busy|, t)
  }

  /** A busy flag is up exactly for the workers that hold a task. */
  ghost predicate Coupled(p: Pool) {
    && (forall i :: i in p.jobs ==> i < |p.busy| && p.busy[i])
    && (forall i :: 0 <= i < |p.busy| && p.busy[i] ==> i in p.jobs)
  }

  /** The router's counters are the numbers of assigned tasks, and stay within the limits. */
  ghost predicate Counted(p: Pool, limits: PerType) {
    forall k :: k != Unknown ==> p.active.At(k) == CountAssigned(p.jobs, |p.busy|, k) <= limits.At(k)
  }

  ghost predicate AllTyped(p: Pool) {
    && (forall w :: w in p.queue ==> Typed(w))
    && (forall i :: i in p.jobs ==> Typed(p.jobs[i]))
  }

  /** For each type, what was picked followed by what waits is what arrived. */
  ghost predicate TypeFifo(p: Pool) {
    forall k :: OfType(p.picked, k) + OfType(TasksOf(p.queue), k) == OfType(p.added, k)
  }

  ghost predicate PoolInv(p: Pool, limits: PerType) {
    && Coupled(p)
    && Counted(p, limits)
    && AllTyped(p)
    && TypeFifo(p)
    && p.dropped == 0
  }

  // ---------------------------------------------------------------- dequeue

  /** Index of the first item that may be sent now; the queue's length if there is none. */
  function FirstRoom(q: seq<WorkItem>, active: PerType, limits: PerType): (j: nat)
    ensures j <= |q|
    ensures j < |q| ==> HasRoom(q[j], active, limits)
    ensures forall h :: 0 <= h < j ==> !HasRoom(q[h], active, limits)
  {
    if q == [] || HasRoom(q[0], active, limits) then 0
    else 1 + FirstRoom(q[1..], active, limits)
  }

  lemma SkipHead(q: seq<WorkItem>, j: nat)
    requires j + 1 < |q|
    ensures [q[0]] + (q[1..][..j] + q[1..][j + 1..]) == q[..j + 1] + q[j + 2..]
  {
  }

  /** `d` takes out the first item whose type has room, and only that one; if there is none it takes nothing. */
  ghost predicate PicksFirst(q: seq<WorkItem>, active: PerType, limits: PerType, d: Pick) {
    var j := FirstRoom(q, active, limits);
    d == if j < |q| then Pick(Some(q[j]), q[..j] + q[j + 1..], []) else Pick(None, q, [])
  }

  lemma TakenHead(q: seq<WorkItem>, active: PerType, limits: PerType)
    requires q != [] && Typed(q[0]) && HasRoom(q[0], active, limits)
    ensures PicksFirst(q, active, limits, Dequeue(q, active, limits))
  {
    assert q[..0] + q[1..] == q[1..];
  }

  lemma SkippedHead(q: seq<WorkItem>, active: PerType, limits: PerType)
    requires q != [] && Typed(q[0]) && !HasRoom(q[0], active, limits)
    requires PicksFirst(q[1..], active, limits, Dequeue(q[1..], active, limits))
    ensures PicksFirst(q, active, limits, Dequeue(q, active, limits))
  {
    var tail := q[1..];
    var j, r := FirstRoom(tail, active, limits), Dequeue(tail, active, limits).rest;
    assert FirstRoom(q, active, limits) == j + 1;
    assert Dequeue(q, active, limits) == Dequeue(tail, active, limits).(rest := [q[0]] + r);
    if j < |tail| {
      assert [q[0]] + r == q[..j + 1] + q[j + 2..] by { SkipHead(q, j); }
    } else {
      assert [q[0]] + r == q;
    }
  }

  /** On typed queues the pick is the first item whose type has room, and only that item leaves. */
  lemma {:induction false} DequeueFirst(q: seq<WorkItem>, active: PerType, limits: PerType)
    requires forall w :: w in q ==> Typed(w)
    ensures PicksFirst(q, active, limits, Dequeue(q, active, limits))
  {
    if q != [] {
      assert q[0] in q;
      if HasRoom(q[0], active, limits) {
        TakenHead(q, active, limits);
      } else {
        assert forall w :: w in q[1..] ==> w in q;
        DequeueFirst(q[1..], active, limits);
        SkippedHead(q, active, limits);
      }
    }
  }

  lemma PickAt(q: seq<WorkItem>, active: PerType, limits: PerType, j: nat)
    requires (forall w :: w in q ==> Typed(w)) && j == FirstRoom(q, active, limits) < |q|
    ensures Dequeue(q, active, limits) == Pick(Some(q[j]), q[..j] + q[j + 1..], [])
  {
    DequeueFirst(q, active, limits);
  }

  lemma PickNothing(q: seq<WorkItem>, active: PerType, limits: PerType)
    requires (forall w :: w in q ==> Typed(w)) && FirstRoom(q, active, limits) == |q|
    ensures Dequeue(q, active, limits) == Pick(None, q, [])
  {
    DequeueFirst(q, active, limits);
  }

  lemma TasksOfSplit(q: seq<WorkItem>, j: nat)
    requires j < |q|
    ensures TasksOf(q) == TasksOf(q[..j]) + [q[j].task] + TasksOf(q[j + 1..])
    ensures TasksOf(q[..j] + q[j + 1..]) == TasksOf(q[..j]) + TasksOf(q[j + 1..])
  {
  }

  lemma {:induction false} OfTypeNone(q: seq<WorkItem>, k: Workload)
    requires forall w :: w in q ==> Typed(w) && TypeOf(w) != k
    ensures OfType(TasksOf(q), k) == []
  {
    if q != [] {
      assert q[0] in q && TasksOf(q)[1..] == TasksOf(q[1..]);
      OfTypeNone(q[1..], k);
    }
  }

  /** Taking out the first item of its type keeps the per-type order of the rest. */
  lemma PickKeepsTypeOrder(q: seq<WorkItem>, j: nat, k: Workload)
    requires j < |q| && forall w :: w in q ==> Typed(w)
    requires forall h :: 0 <= h < j ==> TypeOf(q[h]) != TypeOf(q[j])
    ensures OfType(TasksOf(q), k) == OfType([q[j].task], k) + OfType(TasksOf(q[..j] + q[j + 1..]), k)
  {
    var a, x, b := TasksOf(q[..j]), [q[j].task], TasksOf(q[j + 1..]);
    TasksOfSplit(q, j);
    OfTypeAppend(a + x, b, k);
    OfTypeAppend(a, x, k);
    OfTypeAppend(a, b, k);
    assert Typed(q[j]);
    if k == TypeOf(q[j]) {
      OfTypeNone(q[..j], k);
    } else {
      assert OfType(x, k) == [];
    }
  }

  // ---------------------------------------------------------------- assignments

  lemma {:induction false} CountFrame(m: map<nat, WorkItem>, m': map<nat, WorkItem>, n: nat, k: Workload)
    requires forall i :: 0 <= i < n ==> (i in m <==> i in m') && (i in m ==> m[i] == m'[i])
    ensures CountAssigned(m, n, k) == CountAssigned(m', n, k)
  {
    if n > 0 {
      CountFrame(m, m', n - 1, k);
      assert n - 1 in m <==> n - 1 in m';
    }
  }

  lemma {:induction false} TimesFrame(m: map<nat, WorkItem>, m': map<nat, WorkItem>, n: nat, t: Task)
    requires forall i :: 0 <= i < n ==> (i in m <==> i in m') && (i in m ==> m[i] == m'[i])
    ensures AssignedTimes(m, n, t) == AssignedTimes(m', n, t)
  {
    if n > 0 {
      TimesFrame(m, m', n - 1, t);
      assert n - 1 in m <==> n - 1 in m';
    }
  }

  lemma {:induction false} CountOneMore(m: map<nat, WorkItem>, i: nat, item: WorkItem, n: nat, k: Workload)
    requires i < n && i !in m
    ensures CountAssigned(m[i := item], n, k) == CountAssigned(m, n, k) + if TypeOf(item) == k then 1 else 0
  {
    if i == n - 1 {
      CountFrame(m, m[i := item], n - 1, k);
    } else {
      CountOneMore(m, i, item, n - 1, k);
    }
  }

  lemma {:induction false} TimesOneMore(m: map<nat, WorkItem>, i: nat, item: WorkItem, n: nat, t: Task)
    requires i < n && i !in m
    ensures AssignedTimes(m[i := item], n, t) == AssignedTimes(m, n, t) + if item.task == t then 1 else 0
  {
    if i == n - 1 {
      TimesFrame(m, m[i := item], n - 1, t);
    } else {
      TimesOneMore(m, i, item, n - 1, t);
    }
  }

  lemma {:induction false} CountAtLeast(m: map<nat, WorkItem>, n: nat, i: nat)
    requires i < n && i in m
    ensures CountAssigned(m, n, TypeOf(m[i])) >= 1
  {
    if i < n - 1 { CountAtLeast(m, n - 1, i); }
  }

  // ---------------------------------------------------------------- one offer

  /** How many tasks the pool holds. */
  ghost function Held(p: Pool): nat { |p.queue| + |p.jobs| }

  /** `p` without its queue's item `j`. */
  function Without(p: Pool, j: nat): Pool
    requires j < |p.queue|
  {
    p.(queue := p.queue[..j] + p.queue[j + 1..], picked := p.picked + [p.queue[j].task])
  }

  function Assign(p: Pool, i: nat, item: WorkItem): Pool
    requires i < |p.busy|
  {
    p.(busy := p.busy[i := true],
       active := p.active.Put(TypeOf(item), p.active.At(TypeOf(item)) + 1),
       jobs := p.jobs[i := item])
  }

  /** The first sendable item leaves the queue; each type keeps its arrival order. */
  lemma WithoutFifo(p: Pool, j: nat, limits: PerType)
    requires PoolInv(p, limits) && j == FirstRoom(p.queue, p.active, limits) < |p.queue|
    ensures TypeFifo(Without(p, j))
  {
    var q := Without(p, j);
    var x := p.queue[j].task;
    forall h | 0 <= h < j ensures TypeOf(p.queue[h]) != TypeOf(p.queue[j]) {
      assert p.queue[h] in p.queue && Typed(p.queue[h]);
    }
    forall k ensures OfType(q.picked, k) + OfType(TasksOf(q.queue), k) == OfType(p.added, k) {
      assert OfType(p.picked, k) + OfType(TasksOf(p.queue), k) == OfType(p.added, k);
      FifoOf(p.queue, j, k, p.picked, OfType(p.added, k));
    }
  }

  lemma FifoOf(q: seq<WorkItem>, j: nat, k: Workload, picked: seq<Task>, all: seq<Task>)
    requires j < |q| && (forall w :: w in q ==> Typed(w)) && forall h :: 0 <= h < j ==> TypeOf(q[h]) != TypeOf(q[j])
    requires OfType(picked, k) + OfType(TasksOf(q), k) == all
    ensures OfType(picked + [q[j].task], k) + OfType(TasksOf(q[..j] + q[j + 1..]), k) == all
  {
    PickKeepsTypeOrder(q, j, k);
    OfTypeAppend(picked, [q[j].task], k);
  }

  lemma WithoutKeeps(p: Pool, j: nat, limits: PerType)
    requires PoolInv(p, limits) && j == FirstRoom(p.queue, p.active, limits) < |p.queue|
    ensures PoolInv(Without(p, j), limits)
  {
    WithoutFifo(p, j, limits);
    assert forall w :: w in Without(p, j).queue ==> w in p.queue;
  }

  lemma WithoutTimes(p: Pool, j: nat, t: Task)
    requires j < |p.queue|
    ensures PoolTimes(p, t) == PoolTimes(Without(p, j), t) + if p.queue[j].task == t then 1 else 0
  {
    TasksOfSplit(p.queue, j);
    var ts := TasksOf(p.queue);
    TimesSplice(ts, j, t);
    assert Splice(ts, j) == TasksOf(Without(p, j).queue);
  }

  lemma OneMoreJob(m: map<nat, WorkItem>, i: nat, item: WorkItem)
    requires i !in m
    ensures |m[i := item]| == |m| + 1
  {
    assert m[i := item].Keys == m.Keys + {i};
  }

  /** Assigning and releasing move one type's counter by one. */
  lemma CountsMove(p: Pool, i: nat, item: WorkItem, p': Pool, limits: PerType)
    requires i < |p.busy| == |p'.busy| && i !in p.jobs && p'.jobs == p.jobs[i := item]
    requires TypeOf(item) != Unknown
    requires p'.active == p.active.Put(TypeOf(item), p.active.At(TypeOf(item)) + 1)
    ensures Counted(p, limits) && HasRoom(item, p.active, limits) ==> Counted(p', limits)
    ensures Counted(p', limits) ==> Counted(p, limits)
  {
    forall k ensures CountAssigned(p'.jobs, |p.busy|, k)
                     == CountAssigned(p.jobs, |p.busy|, k) + if TypeOf(item) == k then 1 else 0
    {
      CountOneMore(p.jobs, i, item, |p.busy|, k);
    }
  }

  lemma AssignKeeps(p: Pool, i: nat, item: WorkItem, limits: PerType)
    requires PoolInv(p, limits) && i < |p.busy| && !p.busy[i]
    requires Typed(item) && HasRoom(item, p.active, limits)
    ensures PoolInv(Assign(p, i, item), limits)
    ensures Held(Assign(p, i, item)) == Held(p) + 1
  {
    CountsMove(p, i, item, Assign(p, i, item), limits);
    OneMoreJob(p.jobs, i, item);
  }

  lemma OfferPicked(p: Pool, i: nat, limits: PerType, failing: set<nat>)
    requires PoolInv(p, limits) && i < |p.busy| && !p.busy[i]
    requires FirstRoom(p.queue, p.active, limits) < |p.queue|
    ensures
      var j := FirstRoom(p.queue, p.active, limits);
      var r := Offer(p, i, limits, failing);
      && Typed(p.queue[j])
      && (i in failing ==> r == Sent(Without(p, j), [p.queue[j].task]))
      && (i !in failing ==> r == Sent(Assign(Without(p, j), i, p.queue[j]), []))
  {
    PickedTurn(p, i, limits, failing, FirstRoom(p.queue, p.active, limits));
  }

  lemma PickedTurn(p: Pool, i: nat, limits: PerType, failing: set<nat>, j: nat)
    requires (forall w :: w in p.queue ==> Typed(w)) && i < |p.busy| && !p.busy[i] && i !in p.jobs
    requires j == FirstRoom(p.queue, p.active, limits) < |p.queue|
    ensures Typed(p.queue[j])
    ensures Offer(p, i, limits, failing) ==
            if i in failing then Sent(Without(p, j), [p.queue[j].task])
            else Sent(Assign(Without(p, j), i, p.queue[j]), [])
  {
    assert p.queue[j] in p.queue;
    PickAt(p.queue, p.active, limits, j);
    TurnOf(p, i, limits, failing, j, Dequeue(p.queue, p.active, limits));
  }

  lemma TurnOf(p: Pool, i: nat, limits: PerType, failing: set<nat>, j: nat, d: Pick)
    requires i < |p.busy| && !p.busy[i] && i !in p.jobs && j < |p.queue| && Dequeue(p.queue, p.active, limits) == d
    requires d == Pick(Some(p.queue[j]), p.queue[..j] + p.queue[j + 1..], [])
    ensures Offer(p, i, limits, failing) ==
            if i in failing then Sent(Without(p, j), [p.queue[j].task])
            else Sent(Assign(Without(p, j), i, p.queue[j]), [])
  {
    assert TasksOf([]) == [] && p.jobs - {i} == p.jobs;
  }

  lemma OfferNothing(p: Pool, i: nat, limits: PerType, failing: set<nat>)
    requires PoolInv(p, limits) && i < |p.busy|
    requires p.busy[i] || FirstRoom(p.queue, p.active, limits) == |p.queue|
    ensures Offer(p, i, limits, failing) == Sent(p, [])
  {
    DequeueFirst(p.queue, p.active, limits);
    assert TasksOf([]) == [];
  }

  lemma OfferKeeps(p: Pool, i: nat, limits: PerType, failing: set<nat>)
    requires PoolInv(p, limits) && i < |p.busy|
    ensures
      var r := Offer(p, i, limits, failing);
      && PoolInv(r.pool, limits)
      && Held(p) == Held(r.pool) + |r.failed|
      && r.pool.added == p.added
      && (failing == {} ==> r.failed == [])
  {
    var j := FirstRoom(p.queue, p.active, limits);
    if p.busy[i] || j == |p.queue| {
      OfferNothing(p, i, limits, failing);
    } else {
      OfferPicked(p, i, limits, failing);
      WithoutKeeps(p, j, limits);
      if i !in failing { AssignKeeps(Without(p, j), i, p.queue[j], limits); }
    }
  }

  lemma OfferTimes(p: Pool, i: nat, limits: PerType, failing: set<nat>, t: Task)
    requires PoolInv(p, limits) && i < |p.busy|
    ensures
      var r := Offer(p, i, limits, failing);
      PoolTimes(p, t) == PoolTimes(r.pool, t) + Times(r.failed, t)
  {
    var j := FirstRoom(p.queue, p.active, limits);
    if p.busy[i] || j == |p.queue| {
      OfferNothing(p, i, limits, failing);
    } else {
      OfferPicked(p, i, limits, failing);
      WithoutTimes(p, j, t);
      TimesOne(p.queue[j].task, t);
      if i !in failing { TimesOneMore(p.jobs, i, p.queue[j], |p.busy|, t); }
    }
  }

  // ---------------------------------------------------------------- the dispatch loop

  /** `I` holds of a turn's number, the pool before it and the failures so far, and each turn carries it on. */
  ghost predicate CarriedOn(I: (nat, Pool, seq<Task>) -> bool, n: nat, limits: PerType, failing: set<nat>) {
    forall i: nat, p: Pool, x: seq<Task> {:trigger I(i, p, x), Offer(p, i, limits, failing)} ::
      I(i, p, x) && i < n && i < |p.busy| ==>
        var o := Offer(p, i, limits, failing);
        I(i + 1, o.pool, x + o.failed)
  }

  lemma AppendTwice(a: seq<Task>, b: seq<Task>, c: seq<Task>)
    ensures (a + b) + c == a + (b + c)
  {
  }

  /** The loop rule: what holds before the first turn and is carried on holds after the last one. */
  lemma {:induction false} LoopRule(
    p: Pool, i: nat, n: nat, limits: PerType, failing: set<nat>, I: (nat, Pool, seq<Task>) -> bool, x: seq<Task>)
    requires i <= n <= |p.busy| && I(i, p, x) && CarriedOn(I, n, limits, failing)
    ensures
      var r := DispatchRange(p, i, n, limits, failing);
      I(n, r.pool, x + r.failed)
    decreases n - i
  {
    if i == n {
      assert x + [] == x;
    } else {
      var o := Offer(p, i, limits, failing);
      var r := DispatchRange(o.pool, i + 1, n, limits, failing);
      assert I(i + 1, o.pool, x + o.failed);
      LoopRule(o.pool, i + 1, n, limits, failing, I, x + o.failed);
      AppendTwice(x, o.failed, r.failed);
    }
  }

  /** What a part of a dispatch pass keeps. */
  ghost predicate SentWell(p: Pool, q: Pool, failed: seq<Task>, limits: PerType, failing: set<nat>) {
    && PoolInv(q, limits)
    && Held(p) == Held(q) + |failed|
    && q.added == p.added
    && (failing == {} ==> failed == [])
  }

  lemma SentWellOn(p: Pool, i: nat, q: Pool, x: seq<Task>, limits: PerType, failing: set<nat>, o: Sent)
    requires SentWell(p, q, x, limits, failing) && i < |q.busy| && o == Offer(q, i, limits, failing)
    ensures SentWell(p, o.pool, x + o.failed, limits, failing)
  {
    OfferKeeps(q, i, limits, failing);
  }

  /** A dispatch pass keeps the pool invariant, whichever sends fail. */
  lemma DispatchKeeps(p: Pool, i: nat, n: nat, limits: PerType, failing: set<nat>)
    requires PoolInv(p, limits) && i <= n <= |p.busy|
    ensures
      var r := DispatchRange(p, i, n, limits, failing);
      && PoolInv(r.pool, limits)
      && Held(p) == Held(r.pool) + |r.failed|
      && r.pool.added == p.added
      && (failing == {} ==> r.failed == [])
  {
    var I := (_: nat, q: Pool, x: seq<Task>) => SentWell(p, q, x, limits, failing);
    forall j: nat, q: Pool, x: seq<Task> | I(j, q, x) && j < n && j < |q.busy|
      ensures
        var o := Offer(q, j, limits, failing);
        I(j + 1, o.pool, x + o.failed)
    {
      SentWellOn(p, j, q, x, limits, failing, Offer(q, j, limits, failing));
    }
    LoopRule(p, i, n, limits, failing, I, []);
    var r := DispatchRange(p, i, n, limits, failing);
    assert [] + r.failed == r.failed;
  }

  /** What left the pool is exactly what is reported as failed. */
  ghost predicate Balanced(p: Pool, q: Pool, failed: seq<Task>, t: Task) {
    PoolTimes(p, t) == PoolTimes(q, t) + Times(failed, t)
  }

  lemma BalancedOn(p: Pool, i: nat, q: Pool, x: seq<Task>, limits: PerType, failing: set<nat>, t: Task, o: Sent)
    requires PoolInv(q, limits) && Balanced(p, q, x, t) && i < |q.busy| && o == Offer(q, i, limits, failing)
    ensures PoolInv(o.pool, limits) && Balanced(p, o.pool, x + o.failed, t)
  {
    assert PoolInv(o.pool, limits) by { OfferKeeps(q, i, limits, failing); }
    assert Balanced(q, o.pool, o.failed, t) by { OfferTimes(q, i, limits, failing, t); }
    TimesAppend(x, o.failed, t);
  }

  /** A dispatch pass loses no task. */
  lemma DispatchTimes(p: Pool, i: nat, n: nat, limits: PerType, failing: set<nat>, t: Task)
    requires PoolInv(p, limits) && i <= n <= |p.busy|
    ensures
      var r := DispatchRange(p, i, n, limits, failing);
      PoolTimes(p, t) == PoolTimes(r.pool, t) + Times(r.failed, t)
  {
    var I := (_: nat, q: Pool, x: seq<Task>) => PoolInv(q, limits) && Balanced(p, q, x, t);
    forall j: nat, q: Pool, x: seq<Task> | I(j, q, x) && j < n && j < |q.busy|
      ensures
        var o := Offer(q, j, limits, failing);
        I(j + 1, o.pool, x + o.failed)
    {
      BalancedOn(p, j, q, x, limits, failing, t, Offer(q, j, limits, failing));
    }
    LoopRule(p, i, n, limits, failing, I, []);
    var r := DispatchRange(p, i, n, limits, failing);
    assert [] + r.failed == r.failed;
  }

  // ---------------------------------------------------------------- adding and releasing

  lemma AddAllKeeps(p: Pool, ts: seq<Task>, limits: PerType)
    requires PoolInv(p, limits)
    requires forall i :: 0 <= i < |ts| ==> Typed(ItemFor(ts[i]))
    ensures PoolInv(AddAll(p, ts), limits)
    ensures Held(AddAll(p, ts)) == Held(p) + |ts|
  {
    var r := AddAll(p, ts);
    assert TasksOf(r.queue) == TasksOf(p.queue) + ts;
    forall k ensures OfType(r.picked, k) + OfType(TasksOf(r.queue), k) == OfType(r.added, k) {
      OfTypeAppend(TasksOf(p.queue), ts, k);
      OfTypeAppend(p.added, ts, k);
      assert OfType(p.picked, k) + OfType(TasksOf(p.queue), k) == OfType(p.added, k);
    }
  }

  lemma AddAllTimes(p: Pool, ts: seq<Task>, t: Task)
    ensures PoolTimes(AddAll(p, ts), t) == PoolTimes(p, t) + Times(ts, t)
  {
    var q := TasksOf(p.queue);
    assert TasksOf(AddAll(p, ts).queue) == q + ts;
    assert Times(q + ts, t) == Times(q, t) + Times(ts, t) by { TimesAppend(q, ts, t); }
  }

  lemma ReleaseKeeps(p: Pool, i: nat, limits: PerType)
    requires PoolInv(p, limits) && i < |p.busy|
    ensures PoolInv(Release(p, i), limits)
    ensures i !in p.jobs ==> Release(p, i) == p
    ensures i in p.jobs ==> Held(p) == Held(Release(p, i)) + 1
  {
    var r := Release(p, i);
    if i in p.jobs {
      var item := p.jobs[i];
      assert Typed(item);
      assert p.jobs == r.jobs[i := item];
      CountAtLeast(p.jobs, |p.busy|, i);
      assert p.active == r.active.Put(TypeOf(item), r.active.At(TypeOf(item)) + 1);
      CountsMove(r, i, item, p, limits);
      OneMoreJob(r.jobs, i, item);
    } else {
      assert p.jobs - {i} == p.jobs;
      assert p.busy[i := false] == p.busy;
    }
  }

  lemma ReleaseTimes(p: Pool, i: nat, t: Task)
    requires i < |p.busy| && i in p.jobs
    ensures PoolTimes(p, t) == PoolTimes(Release(p, i), t) + if p.jobs[i].task == t then 1 else 0
  {
    var r := Release(p, i);
    assert p.jobs == r.jobs[i := p.jobs[i]];
    TimesOneMore(r.jobs, i, p.jobs[i], |p.busy|, t);
  }

  // ---------------------------------------------------------------- work conservation

  /** No worker below `n` idles while an item that could run waits. */
  ghost predicate Saturated(p: Pool, n: nat, limits: PerType)
    requires n <= |p.busy|
  {
    forall i, w :: 0 <= i < n && !p.busy[i] && w in p.queue ==> !HasRoom(w, p.active, limits)
  }

  lemma OfferSaturates(p: Pool, i: nat, limits: PerType)
    requires PoolInv(p, limits) && i < |p.busy| && Saturated(p, i, limits)
    ensures Saturated(Offer(p, i, limits, {}).pool, i + 1, limits)
  {
    var f := FirstRoom(p.queue, p.active, limits);
    if p.busy[i] || f == |p.queue| {
      OfferNothing(p, i, limits, {});
    } else {
      OfferPicked(p, i, limits, {});
      SaturatedAfter(p, i, f, limits, Offer(p, i, limits, {}).pool);
    }
  }

  lemma SaturatedAfter(p: Pool, i: nat, f: nat, limits: PerType, r: Pool)
    requires i < |p.busy| && Saturated(p, i, limits) && f < |p.queue|
    requires r.busy == p.busy[i := true] && r.queue == p.queue[..f] + p.queue[f + 1..]
    requires forall k :: r.active.At(k) >= p.active.At(k)
    ensures Saturated(r, i + 1, limits)
  {
    assert forall w :: w in r.queue ==> w in p.queue;
  }

  /** After a pass without failing sends no idle worker coexists with an item that may run. */
  lemma DispatchSaturates(p: Pool, i: nat, limits: PerType)
    requires PoolInv(p, limits) && i <= |p.busy| && Saturated(p, i, limits)
    ensures Saturated(DispatchRange(p, i, |p.busy|, limits, {}).pool, |p.busy|, limits)
  {
    var n := |p.busy|;
    var I := (j: nat, q: Pool, _: seq<Task>) => PoolInv(q, limits) && j <= |q.busy| == n && Saturated(q, j, limits);
    forall j: nat, q: Pool, x: seq<Task> | I(j, q, x) && j < n && j < |q.busy|
      ensures
        var o := Offer(q, j, limits, {});
        I(j + 1, o.pool, x + o.failed)
    {
      OfferKeeps(q, j, limits, {});
      OfferSaturates(q, j, limits);
    }
    LoopRule(p, i, n, limits, {}, I, []);
  }
}
