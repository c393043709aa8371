/** Queue tasks, the items handed to worker threads, and small sequence helpers. */
module Tasks {

  datatype Option<+T> = None | Some(value: T)

  datatype Workload = Cpu | Memory | Custom | Unknown

  /** A queued request. `hasCode` says whether a function body was supplied. */
  datatype Task = Task(
    id: nat, priority: int, category: string, size: nat,
    workload: Option<Workload>, hasCode: bool, timestamp: int)

  /** WorkerTaskData: a task on its way to a worker thread. */
  datatype WorkItem = WorkItem(task: Task, kind: Option<Workload>, hasCode: bool)

  /** createWorkerTaskData */
  function ItemFor(t: Task): WorkItem {
    WorkItem(t, t.workload, t.hasCode)
  }

  /** determineTaskType: explicit kind first, then the task's own, then the presence of code. */
  function TypeOf(w: WorkItem): Workload {
    if w.kind.Some? then w.kind.value
    else if w.task.workload.Some? then w.task.workload.value
    else if w.hasCode || w.task.hasCode then Custom
    else Unknown
  }

  function TasksOf(items: seq<WorkItem>): (r: seq<Task>)
    ensures |r| == |items|
    ensures forall i :: 0 <= i < |items| ==> r[i] == items[i].task
  {
    seq(|items|, i requires 0 <= i < |items| => items[i].task)
  }

  function ItemsFor(ts: seq<Task>): (r: seq<WorkItem>)
    ensures |r| == |ts|
    ensures forall i :: 0 <= i < |ts| ==> r[i] == ItemFor(ts[i])
  {
    seq(|ts|, i requires 0 <= i < |ts| => ItemFor(ts[i]))
  }

  /** The tasks of worker type `k`, in order. */
  function OfType(ts: seq<Task>, k: Workload): seq<Task> {
    if ts == [] then []
    else (if TypeOf(ItemFor(ts[0])) == k then [ts[0]] else []) + OfType(ts[1..], k)
  }

  lemma {:induction false} OfTypeAppend(a: seq<Task>, b: seq<Task>, k: Workload)
    ensures OfType(a + b, k) == OfType(a, k) + OfType(b, k)
  {
    if a == [] {
      assert a + b == b;
    } else {
      var head := if TypeOf(ItemFor(a[0])) == k then [a[0]] else [];
      var x, y := OfType(a[1..], k), OfType(b, k);
      assert (a + b)[1..] == a[1..] + b;
      OfTypeAppend(a[1..], b, k);
      assert OfType(a + b, k) == head + (x + y);
      assert head + (x + y) == head + x + y;
    }
  }

  /** Strictly increasing ids: arrival order. */
  ghost predicate Increasing(ts: seq<Task>) {
    forall i, j :: 0 <= i < j < |ts| ==> ts[i].id < ts[j].id
  }

  // ---------------------------------------------------------------- counting occurrences

  /** How often `t` occurs in `ts`. */
  function Times(ts: seq<Task>, t: Task): nat {
    if ts == [] then 0 else (if ts[0] == t then 1 else 0) + Times(ts[1..], t)
  }

  lemma {:induction false} TimesAppend(a: seq<Task>, b: seq<Task>, t: Task)
    ensures Times(a + b, t) == Times(a, t) + Times(b, t)
  {
    if a == [] {
      assert a + b == b;
    } else {
      assert (a + b)[1..] == a[1..] + b;
      TimesAppend(a[1..], b, t);
    }
  }

  lemma TimesOne(x: Task, t: Task)
    ensures Times([x], t) == if x == t then 1 else 0
  {
    assert Times([x][1..], t) == 0;
  }

  lemma TimesSnoc(ts: seq<Task>, x: Task, t: Task)
    ensures Times(ts + [x], t) == Times(ts, t) + if x == t then 1 else 0
  {
    TimesAppend(ts, [x], t);
    TimesOne(x, t);
  }

  lemma TimesSplit(ts: seq<Task>, k: nat, t: Task)
    requires k <= |ts|
    ensures Times(ts, t) == Times(ts[..k], t) + Times(ts[k..], t)
  {
    assert ts == ts[..k] + ts[k..];
    TimesAppend(ts[..k], ts[k..], t);
  }

  /** Everything but element `i`. */
  function Splice(ts: seq<Task>, i: nat): (r: seq<Task>)
    requires i < |ts|
    ensures |r| == |ts| - 1
  {
    ts[..i] + ts[i + 1..]
  }

  lemma TimesSplice(ts: seq<Task>, i: nat, t: Task)
    requires i < |ts|
    ensures Times(ts, t) == Times(Splice(ts, i), t) + if ts[i] == t then 1 else 0
  {
    assert ts == ts[..i] + ([ts[i]] + ts[i + 1..]);
    TimesAppend(ts[..i], [ts[i]] + ts[i + 1..], t);
    TimesAppend([ts[i]], ts[i + 1..], t);
    TimesOne(ts[i], t);
    TimesAppend(ts[..i], ts[i + 1..], t);
  }

  lemma {:induction false} TimesPositive(ts: seq<Task>, t: Task)
    ensures Times(ts, t) > 0 <==> t in ts
  {
    if ts != [] { TimesPositive(ts[1..], t); }
  }

  lemma {:induction false} IncreasingOnce(ts: seq<Task>, t: Task)
    requires Increasing(ts)
    ensures Times(ts, t) <= 1
  {
    if ts != [] {
      IncreasingOnce(ts[1..], t);
      TimesPositive(ts[1..], t);
      assert t in ts[1..] ==> ts[0].id < t.id;
    }
  }

  function Max(a: int, b: int): int { if a >= b then a else b }
  function Min(a: int, b: int): int { if a <= b then a else b }
}
