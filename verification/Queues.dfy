/**
 * The waiting room: three priority queues and the batch map
 * (queue-state.holder.ts, batch.service.ts, memory.service.ts).
 */
module Queues {
  import opened Tasks

  datatype Batch = Batch(tasks: seq<Task>, category: string, totalSize: int, createdAt: int)

  /** One entry of the batch map; the map is a sequence of entries in insertion order. */
  datatype Entry = Entry(key: string, batch: Batch)

  datatype Room = Room(high: seq<Task>, normal: seq<Task>, low: seq<Task>, batches: seq<Entry>)

  const BATCH_MAX_AGE_MS := 1500
  const BATCH_ELIGIBLE_SIZE_MAX := 3
  const FORCE_REDUCE_BATCH_SIZE_THRESHOLD := 50

  // ---------------------------------------------------------------- the batch map

  /** Position of a key, or the number of entries if it is absent. */
  function Find(bs: seq<Entry>, key: string): (j: nat)
    ensures j <= |bs|
    ensures j < |bs| ==> bs[j].key == key
    ensures forall h :: 0 <= h < j ==> bs[h].key != key
  {
    if bs == [] || bs[0].key == key then 0 else 1 + Find(bs[1..], key)
  }

  /** Map.delete */
  function Delete(bs: seq<Entry>, key: string): seq<Entry> {
    var j := Find(bs, key);
    if j == |bs| then bs else bs[..j] + bs[j + 1..]
  }

  ghost function BatchTimes(bs: seq<Entry>, t: Task): nat {
    if bs == [] then 0 else Times(bs[0].batch.tasks, t) + BatchTimes(bs[1..], t)
  }

  /** getBatchTaskCount */
  function BatchCount(bs: seq<Entry>): nat {
    if bs == [] then 0 else |bs[0].batch.tasks| + BatchCount(bs[1..])
  }

  /** getTotalQueueLength */
  function Total(r: Room): nat {
    |r.high| + |r.normal| + |r.low| + BatchCount(r.batches)
  }

  /** How often `t` occurs in the waiting room. */
  ghost function RoomTimes(r: Room, t: Task): nat {
    Times(r.high, t) + Times(r.normal, t) + Times(r.low, t) + BatchTimes(r.batches, t)
  }

  function SumSizes(ts: seq<Task>): nat {
    if ts == [] then 0 else ts[0].size + SumSizes(ts[1..])
  }

  lemma {:induction false} SumSizesAppend(a: seq<Task>, b: seq<Task>)
    ensures SumSizes(a + b) == SumSizes(a) + SumSizes(b)
  {
    if a == [] {
      assert a + b == b;
    } else {
      assert (a + b)[1..] == a[1..] + b;
      SumSizesAppend(a[1..], b);
    }
  }

  lemma {:induction false} BatchesAppend(a: seq<Entry>, b: seq<Entry>, t: Task)
    ensures BatchTimes(a + b, t) == BatchTimes(a, t) + BatchTimes(b, t)
    ensures BatchCount(a + b) == BatchCount(a) + BatchCount(b)
  {
    if a == [] {
      assert a + b == b;
    } else {
      assert (a + b)[1..] == a[1..] + b;
      BatchesAppend(a[1..], b, t);
    }
  }

  lemma BatchesOne(e: Entry, t: Task)
    ensures BatchTimes([e], t) == Times(e.batch.tasks, t)
    ensures BatchCount([e]) == |e.batch.tasks|
  {
    assert [e][1..] == [];
  }

  /** Entry `j` accounts for its own tasks and no others. */
  lemma BatchesSplit(bs: seq<Entry>, j: nat, rest: seq<Entry>, t: Task)
    requires j < |bs| && rest == bs[..j] + bs[j + 1..]
    ensures BatchTimes(bs, t) == BatchTimes(rest, t) + Times(bs[j].batch.tasks, t)
    ensures BatchCount(bs) == BatchCount(rest) + |bs[j].batch.tasks|
  {
    var a, b := bs[..j], bs[j + 1..];
    assert bs == a + ([bs[j]] + b);
    BatchesAppend(a, [bs[j]] + b, t);
    BatchesAppend([bs[j]], b, t);
    BatchesOne(bs[j], t);
    BatchesAppend(a, b, t);
  }

  lemma BatchesReplace(bs: seq<Entry>, j: nat, e: Entry, t: Task)
    requires j < |bs|
    ensures BatchTimes(bs[j := e], t) + Times(bs[j].batch.tasks, t) == BatchTimes(bs, t) + Times(e.batch.tasks, t)
    ensures BatchCount(bs[j := e]) + |bs[j].batch.tasks| == BatchCount(bs) + |e.batch.tasks|
  {
    var rest := bs[..j] + bs[j + 1..];
    var bs' := bs[j := e];
    BatchesSplit(bs, j, rest, t);
    assert rest == bs'[..j] + bs'[j + 1..];
    BatchesSplit(bs', j, rest, t);
  }

  // ---------------------------------------------------------------- invariant

  /** Which tasks may stand in a given line. */
  datatype Class = High | Normal | Low | InBatch(category: string)

  predicate Fits(t: Task, c: Class) {
    match c
    case High => t.priority >= 5
    case Normal => 0 <= t.priority < 5
    case Low => t.priority < 0
    case InBatch(category) => t.priority < 5 && t.category == category && t.size > 0
  }

  /** A line of one class in arrival order, with ids not above the last one given out. */
  ghost predicate Line(ts: seq<Task>, c: Class, last: nat) {
    && Increasing(ts)
    && forall i :: 0 <= i < |ts| ==> Fits(ts[i], c) && ts[i].id <= last
  }

  /** A batch is keyed by its own category, is not empty, and knows the sum of its sizes. */
  ghost predicate BatchOk(e: Entry, last: nat) {
    && e.batch.tasks != []
    && e.key == e.batch.category != ""
    && e.batch.totalSize == SumSizes(e.batch.tasks)
    && Line(e.batch.tasks, InBatch(e.key), last)
  }

  ghost predicate BatchesOk(bs: seq<Entry>, last: nat) {
    && (forall i :: 0 <= i < |bs| ==> BatchOk(bs[i], last))
    && (forall i, j :: 0 <= i < j < |bs| ==> bs[i].key != bs[j].key)
  }

  ghost predicate RoomInv(r: Room, last: nat) {
    && Line(r.high, High, last)
    && Line(r.normal, Normal, last)
    && Line(r.low, Low, last)
    && BatchesOk(r.batches, last)
  }

  lemma LineAppend(ts: seq<Task>, c: Class, last: nat, t: Task)
    requires Line(ts, c, last) && t.id == last + 1 && Fits(t, c)
    ensures Line(ts + [t], c, last + 1)
  {
  }

  lemma LineSlice(ts: seq<Task>, c: Class, last: nat, lo: nat, hi: nat)
    requires Line(ts, c, last) && lo <= hi <= |ts|
    ensures Line(ts[lo..hi], c, last)
  {
  }

  lemma FindUnique(bs: seq<Entry>, j: nat, last: nat)
    requires BatchesOk(bs, last) && j < |bs|
    ensures Find(bs, bs[j].key) == j
  {
    var i := Find(bs, bs[j].key);
    assert i <= j;
  }

  lemma DeleteKeeps(bs: seq<Entry>, key: string, last: nat)
    requires BatchesOk(bs, last)
    ensures BatchesOk(Delete(bs, key), last)
  {
  }

  lemma ReplaceKeeps(bs: seq<Entry>, j: nat, e: Entry, last: nat)
    requires BatchesOk(bs, last) && j < |bs| && e.key == bs[j].key && BatchOk(e, last)
    ensures BatchesOk(bs[j := e], last)
  {
  }

  lemma BatchesMonotone(bs: seq<Entry>, last: nat, last': nat)
    requires BatchesOk(bs, last) && last <= last'
    ensures BatchesOk(bs, last')
  {
    forall i | 0 <= i < |bs| ensures BatchOk(bs[i], last') {
      assert BatchOk(bs[i], last);
    }
  }

  // ---------------------------------------------------------------- placing a new task

  /** shouldAddToBatch */
  predicate ShouldBatch(t: Task, bs: seq<Entry>) {
    && t.priority < 5
    && t.category != ""
    && (Find(bs, t.category) < |bs| || t.size <= BATCH_ELIGIBLE_SIZE_MAX)
  }

  /** addTaskToBatch; a zero size counts as one here. */
  function AddToBatch(t: Task, bs: seq<Entry>, now: int): seq<Entry> {
    var j := Find(bs, t.category);
    var bs' := if j < |bs| then bs else bs + [Entry(t.category, Batch([], t.category, 0, now))];
    var b := bs'[j].batch;
    bs'[j := Entry(bs'[j].key,
                   b.(tasks := b.tasks + [t], totalSize := b.totalSize + if t.size == 0 then 1 else t.size))]
  }

  /** The placement half of QueueService.enqueue. */
  function Place(r: Room, t: Task, batch: bool, now: int): Room {
    if batch && ShouldBatch(t, r.batches) then r.(batches := AddToBatch(t, r.batches, now))
    else if t.priority >= 5 then r.(high := r.high + [t])
    else if t.priority >= 0 then r.(normal := r.normal + [t])
    else r.(low := r.low + [t])
  }

  lemma JoinBatch(t: Task, e: Entry, last: nat, joined: Entry)
    requires BatchOk(e, last) && t.id == last + 1 && Fits(t, InBatch(e.key))
    requires joined.key == e.key && joined.batch.category == e.batch.category
    requires joined.batch.tasks == e.batch.tasks + [t] && joined.batch.totalSize == e.batch.totalSize + t.size
    ensures BatchOk(joined, last + 1)
  {
    LineAppend(e.batch.tasks, InBatch(e.key), last, t);
    SumSizesAppend(e.batch.tasks, [t]);
  }

  lemma {:induction false} NewBatchOk(t: Task, bs: seq<Entry>, e: Entry, last: nat)
    requires BatchesOk(bs, last) && t.id == last + 1 && Fits(t, InBatch(e.key))
    requires Find(bs, e.key) == |bs| && e.key == e.batch.category != ""
    requires e.batch.tasks == [t] && e.batch.totalSize == t.size
    ensures BatchesOk(bs + [e], last + 1)
  {
    assert SumSizes([t]) == t.size + SumSizes([]);
    BatchesMonotone(bs, last, last + 1);
    assert BatchOk(e, last + 1);
  }

  lemma AddToBatchKeeps(t: Task, bs: seq<Entry>, now: int, last: nat)
    requires BatchesOk(bs, last) && t.id == last + 1 && t.category != "" && Fits(t, InBatch(t.category))
    ensures BatchesOk(AddToBatch(t, bs, now), last + 1)
  {
    var j := Find(bs, t.category);
    if j < |bs| {
      var e := AddToBatch(t, bs, now)[j];
      JoinBatch(t, bs[j], last, e);
      BatchesMonotone(bs, last, last + 1);
      ReplaceKeeps(bs, j, e, last + 1);
    } else {
      var e := Entry(t.category, Batch([t], t.category, t.size, now));
      assert [] + [t] == [t];
      assert AddToBatch(t, bs, now) == bs + [e];
      NewBatchOk(t, bs, e, last);
    }
  }

  lemma AddToBatchTimes(x: Task, bs: seq<Entry>, now: int, t: Task)
    ensures BatchTimes(AddToBatch(x, bs, now), t) == BatchTimes(bs, t) + if x == t then 1 else 0
    ensures BatchCount(AddToBatch(x, bs, now)) == BatchCount(bs) + 1
  {
    var j := Find(bs, x.category);
    var e0 := Entry(x.category, Batch([], x.category, 0, now));
    var bs' := if j < |bs| then bs else bs + [e0];
    BatchesAppend(bs, [e0], t);
    BatchesOne(e0, t);
    var e := AddToBatch(x, bs, now)[j];
    BatchesReplace(bs', j, e, t);
    TimesSnoc(bs'[j].batch.tasks, x, t);
  }

  /** A fresh task goes to its own class's queue or its category's batch. */
  lemma PlaceKeeps(r: Room, t: Task, batch: bool, now: int, last: nat)
    requires RoomInv(r, last) && t.id == last + 1 && t.size > 0 && t.category != ""
    ensures RoomInv(Place(r, t, batch, now), last + 1)
  {
    BatchesMonotone(r.batches, last, last + 1);
    if batch && ShouldBatch(t, r.batches) {
      AddToBatchKeeps(t, r.batches, now, last);
    } else if t.priority >= 5 {
      LineAppend(r.high, High, last, t);
    } else if t.priority >= 0 {
      LineAppend(r.normal, Normal, last, t);
    } else {
      LineAppend(r.low, Low, last, t);
    }
  }

  /** Exactly one place gains exactly one occurrence. */
  lemma PlaceTimes(r: Room, x: Task, batch: bool, now: int, t: Task)
    ensures RoomTimes(Place(r, x, batch, now), t) == RoomTimes(r, t) + if x == t then 1 else 0
    ensures Total(Place(r, x, batch, now)) == Total(r) + 1
  {
    if batch && ShouldBatch(x, r.batches) {
      AddToBatchTimes(x, r.batches, now, t);
    } else if x.priority >= 5 {
      TimesSnoc(r.high, x, t);
    } else if x.priority >= 0 {
      TimesSnoc(r.normal, x, t);
    } else {
      TimesSnoc(r.low, x, t);
    }
  }

  // ---------------------------------------------------------------- removing one task

  /** indexOf */
  function IndexOf(ts: seq<Task>, t: Task): (i: nat)
    ensures i <= |ts|
    ensures i < |ts| ==> ts[i] == t
    ensures forall h :: 0 <= h < i ==> ts[h] != t
  {
    if ts == [] || ts[0] == t then 0 else 1 + IndexOf(ts[1..], t)
  }

  /** First entry whose batch contains `t`; the number of entries if none does. */
  function Holder(bs: seq<Entry>, t: Task): (j: nat)
    ensures j <= |bs|
    ensures j < |bs| ==> t in bs[j].batch.tasks
    ensures forall h :: 0 <= h < j ==> t !in bs[h].batch.tasks
  {
    if bs == [] || t in bs[0].batch.tasks then 0 else 1 + Holder(bs[1..], t)
  }

  /** An entry after one of its tasks is spliced out. */
  function Leave(e: Entry, t: Task): Entry
    requires t in e.batch.tasks
  {
    Entry(e.key, e.batch.(tasks := Splice(e.batch.tasks, IndexOf(e.batch.tasks, t)),
                          totalSize := e.batch.totalSize - t.size))
  }

  /** The batch half of removeTaskFromQueues: an emptied batch is deleted under its own category. */
  function RemoveFromBatches(bs: seq<Entry>, t: Task): seq<Entry> {
    var j := Holder(bs, t);
    if j == |bs| then bs
    else
      var e := Leave(bs[j], t);
      if e.batch.tasks == [] then Delete(bs[j := e], e.batch.category) else bs[j := e]
  }

  predicate Waiting(r: Room, t: Task) {
    t in r.high || t in r.normal || t in r.low || Holder(r.batches, t) < |r.batches|
  }

  /** removeTaskFromQueues */
  function Remove(r: Room, t: Task): Room {
    if t in r.high then r.(high := Splice(r.high, IndexOf(r.high, t)))
    else if t in r.normal then r.(normal := Splice(r.normal, IndexOf(r.normal, t)))
    else if t in r.low then r.(low := Splice(r.low, IndexOf(r.low, t)))
    else r.(batches := RemoveFromBatches(r.batches, t))
  }

  lemma SpliceKeeps(ts: seq<Task>, i: nat, c: Class, last: nat)
    requires Line(ts, c, last) && i < |ts|
    ensures Line(Splice(ts, i), c, last)
  {
  }

  lemma {:induction false} SpliceSum(ts: seq<Task>, i: nat)
    requires i < |ts|
    ensures SumSizes(ts) == SumSizes(Splice(ts, i)) + ts[i].size
  {
    var rest := Splice(ts, i);
    if i == 0 {
      assert rest == ts[1..];
    } else {
      SpliceSum(ts[1..], i - 1);
      assert rest[0] == ts[0] && rest[1..] == Splice(ts[1..], i - 1);
    }
  }

  lemma LeaveKeeps(e: Entry, t: Task, last: nat)
    requires BatchOk(e, last) && t in e.batch.tasks
    ensures Leave(e, t).batch.tasks != [] ==> BatchOk(Leave(e, t), last)
  {
    var i := IndexOf(e.batch.tasks, t);
    SpliceKeeps(e.batch.tasks, i, InBatch(e.key), last);
    SpliceSum(e.batch.tasks, i);
  }

  /** Deleting an emptied batch under its category removes that entry and no other. */
  lemma EmptiedDelete(bs: seq<Entry>, j: nat, e: Entry, last: nat)
    requires BatchesOk(bs, last) && j < |bs| && e.key == bs[j].key
    ensures Delete(bs[j := e], bs[j].batch.category) == Delete(bs, bs[j].key) == bs[..j] + bs[j + 1..]
    ensures BatchesOk(Delete(bs, bs[j].key), last)
  {
    assert BatchOk(bs[j], last);
    FindUnique(bs, j, last);
    var bs' := bs[j := e];
    var h := Find(bs', e.key);
    assert bs'[j].key == e.key;
    assert forall x :: 0 <= x < j ==> bs'[x].key == bs[x].key;
    assert h == j;
    assert bs'[..j] == bs[..j] && bs'[j + 1..] == bs[j + 1..];
    DeleteKeeps(bs, bs[j].key, last);
  }

  lemma RemoveFromBatchesKeeps(bs: seq<Entry>, t: Task, last: nat)
    requires BatchesOk(bs, last) && Holder(bs, t) < |bs|
    ensures BatchesOk(RemoveFromBatches(bs, t), last)
  {
    var j := Holder(bs, t);
    assert BatchOk(bs[j], last);
    LeaveKeeps(bs[j], t, last);
    var e := Leave(bs[j], t);
    if e.batch.tasks == [] {
      EmptiedDelete(bs, j, e, last);
    } else {
      ReplaceKeeps(bs, j, e, last);
    }
  }

  lemma RemoveFromBatchesTimes(bs: seq<Entry>, x: Task, last: nat, t: Task)
    requires BatchesOk(bs, last) && Holder(bs, x) < |bs|
    ensures BatchTimes(bs, t) == BatchTimes(RemoveFromBatches(bs, x), t) + if x == t then 1 else 0
    ensures BatchCount(bs) == BatchCount(RemoveFromBatches(bs, x)) + 1
  {
    var j := Holder(bs, x);
    var e := Leave(bs[j], x);
    TimesSplice(bs[j].batch.tasks, IndexOf(bs[j].batch.tasks, x), t);
    assert BatchOk(bs[j], last);
    if e.batch.tasks == [] {
      EmptiedDelete(bs, j, e, last);
      BatchesSplit(bs, j, bs[..j] + bs[j + 1..], t);
    } else {
      BatchesReplace(bs, j, e, t);
    }
  }

  lemma RemoveKeeps(r: Room, t: Task, last: nat)
    requires RoomInv(r, last) && Waiting(r, t)
    ensures RoomInv(Remove(r, t), last)
  {
    if t in r.high {
      SpliceKeeps(r.high, IndexOf(r.high, t), High, last);
    } else if t in r.normal {
      SpliceKeeps(r.normal, IndexOf(r.normal, t), Normal, last);
    } else if t in r.low {
      SpliceKeeps(r.low, IndexOf(r.low, t), Low, last);
    } else {
      RemoveFromBatchesKeeps(r.batches, t, last);
    }
  }

  /** A removed task leaves exactly the one place it was in. */
  lemma RemoveTimes(r: Room, x: Task, last: nat, t: Task)
    requires RoomInv(r, last) && Waiting(r, x)
    ensures RoomTimes(r, t) == RoomTimes(Remove(r, x), t) + if x == t then 1 else 0
    ensures Total(r) == Total(Remove(r, x)) + 1
  {
    if x in r.high {
      TimesSplice(r.high, IndexOf(r.high, x), t);
    } else if x in r.normal {
      TimesSplice(r.normal, IndexOf(r.normal, x), t);
    } else if x in r.low {
      TimesSplice(r.low, IndexOf(r.low, x), t);
    } else {
      RemoveFromBatchesTimes(r.batches, x, last, t);
    }
  }

  // ---------------------------------------------------------------- taking tasks for a pass

  /** What a pass may take, in its order: low-priority tasks only without memory pressure. */
  function Offered(r: Room, pressure: bool): seq<Task> {
    r.high + r.normal + if pressure then [] else r.low
  }

  /** The queues after the first `k` offered tasks are shifted off. */
  function Shifted(r: Room, pressure: bool, k: nat): Room
    requires k <= |Offered(r, pressure)|
  {
    if k <= |r.high| then r.(high := r.high[k..])
    else if k <= |r.high| + |r.normal| then r.(high := [], normal := r.normal[k - |r.high|..])
    else r.(high := [], normal := [], low := r.low[k - |r.high| - |r.normal|..])
  }

  /** Nobody overtakes: what is offered next is the rest of the line. */
  lemma ShiftedRest(r: Room, pressure: bool, k: nat)
    requires k <= |Offered(r, pressure)|
    ensures Offered(Shifted(r, pressure, k), pressure) == Offered(r, pressure)[k..]
  {
  }

  lemma OfferedPrefix(r: Room, pressure: bool, k: nat)
    requires k <= |Offered(r, pressure)|
    ensures Offered(r, pressure)[..k] ==
            if k <= |r.high| then r.high[..k]
            else if k <= |r.high| + |r.normal| then r.high + r.normal[..k - |r.high|]
            else r.high + r.normal + r.low[..k - |r.high| - |r.normal|]
  {
  }

  lemma ShiftedTimes(r: Room, pressure: bool, k: nat, t: Task)
    requires k <= |Offered(r, pressure)|
    ensures RoomTimes(r, t) == RoomTimes(Shifted(r, pressure, k), t) + Times(Offered(r, pressure)[..k], t)
    ensures Total(r) == Total(Shifted(r, pressure, k)) + k
  {
    OfferedPrefix(r, pressure, k);
    var h, n := |r.high|, |r.normal|;
    if k <= h {
      TimesSplit(r.high, k, t);
    } else if k <= h + n {
      TimesSplit(r.normal, k - h, t);
      TimesAppend(r.high, r.normal[..k - h], t);
    } else {
      TimesSplit(r.low, k - h - n, t);
      TimesAppend(r.high + r.normal, r.low[..k - h - n], t);
      TimesAppend(r.high, r.normal, t);
    }
  }

  lemma ShiftedKeeps(r: Room, pressure: bool, k: nat, last: nat)
    requires RoomInv(r, last) && k <= |Offered(r, pressure)|
    ensures RoomInv(Shifted(r, pressure, k), last)
  {
    var h, n := |r.high|, |r.normal|;
    if k <= h {
      LineSlice(r.high, High, last, k, h);
    } else if k <= h + n {
      LineSlice(r.normal, Normal, last, k - h, n);
    } else {
      LineSlice(r.low, Low, last, k - h - n, |r.low|);
    }
  }

  // ---------------------------------------------------------------- starting a batch

  /** The map after the first `k` tasks of entry `j` are dispatched (processBatch). */
  function TakeFromBatch(bs: seq<Entry>, j: nat, k: nat, now: int): seq<Entry>
    requires j < |bs| && k <= |bs[j].batch.tasks|
  {
    var b := bs[j].batch;
    if k == |b.tasks| then Delete(bs, bs[j].key)
    else
      bs[j := Entry(bs[j].key, b.(tasks := b.tasks[k..],
                                  totalSize := Max(0, b.totalSize - SumSizes(b.tasks[..k])),
                                  createdAt := now))]
  }

  lemma PartLeft(e: Entry, k: nat, last: nat, left: Entry)
    requires BatchOk(e, last) && k < |e.batch.tasks|
    requires left.key == e.key && left.batch.category == e.batch.category
    requires left.batch.tasks == e.batch.tasks[k..]
    requires left.batch.totalSize == Max(0, e.batch.totalSize - SumSizes(e.batch.tasks[..k]))
    ensures BatchOk(left, last)
  {
    LineSlice(e.batch.tasks, InBatch(e.key), last, k, |e.batch.tasks|);
    assert e.batch.tasks == e.batch.tasks[..k] + e.batch.tasks[k..];
    SumSizesAppend(e.batch.tasks[..k], e.batch.tasks[k..]);
  }

  lemma TakeFromBatchKeeps(bs: seq<Entry>, j: nat, k: nat, now: int, last: nat)
    requires BatchesOk(bs, last) && j < |bs| && k <= |bs[j].batch.tasks|
    ensures BatchesOk(TakeFromBatch(bs, j, k, now), last)
  {
    assert BatchOk(bs[j], last);
    if k == |bs[j].batch.tasks| {
      DeleteKeeps(bs, bs[j].key, last);
    } else {
      var e := TakeFromBatch(bs, j, k, now)[j];
      PartLeft(bs[j], k, last, e);
      ReplaceKeeps(bs, j, e, last);
    }
  }

  /** Dispatching part of a batch moves exactly those tasks out of the map. */
  lemma TakeFromBatchTimes(bs: seq<Entry>, j: nat, k: nat, now: int, last: nat, t: Task)
    requires BatchesOk(bs, last) && j < |bs| && k <= |bs[j].batch.tasks|
    ensures BatchTimes(bs, t) == BatchTimes(TakeFromBatch(bs, j, k, now), t) + Times(bs[j].batch.tasks[..k], t)
    ensures BatchCount(bs) == BatchCount(TakeFromBatch(bs, j, k, now)) + k
  {
    var ts := bs[j].batch.tasks;
    if k == |ts| {
      EmptiedDelete(bs, j, bs[j], last);
      BatchesSplit(bs, j, bs[..j] + bs[j + 1..], t);
      assert ts[..k] == ts;
    } else {
      TimesSplit(ts, k, t);
      BatchesReplace(bs, j, TakeFromBatch(bs, j, k, now)[j], t);
    }
  }

  // ---------------------------------------------------------------- age cleanup

  /** Older than one and a half times the queue timeout. */
  predicate TooOld(since: int, now: int, timeoutMs: nat) {
    2 * (now - since) > 3 * timeoutMs
  }

  /** cleanupQueue: what survives. */
  function Young(ts: seq<Task>, now: int, timeoutMs: nat): seq<Task> {
    if ts == [] then []
    else
      var last := ts[|ts| - 1];
      Young(ts[..|ts| - 1], now, timeoutMs) + if TooOld(last.timestamp, now, timeoutMs) then [] else [last]
  }

  /** cleanupQueue: what is rejected, from the back. */
  function Expired(ts: seq<Task>, now: int, timeoutMs: nat): seq<Task> {
    if ts == [] then []
    else
      var last := ts[|ts| - 1];
      (if TooOld(last.timestamp, now, timeoutMs) then [last] else []) + Expired(ts[..|ts| - 1], now, timeoutMs)
  }

  function YoungBatches(bs: seq<Entry>, now: int, timeoutMs: nat): seq<Entry> {
    if bs == [] then []
    else (if TooOld(bs[0].batch.createdAt, now, timeoutMs) then [] else [bs[0]]) + YoungBatches(bs[1..], now, timeoutMs)
  }

  function ExpiredBatches(bs: seq<Entry>, now: int, timeoutMs: nat): seq<Task> {
    if bs == [] then []
    else (if TooOld(bs[0].batch.createdAt, now, timeoutMs) then bs[0].batch.tasks else [])
         + ExpiredBatches(bs[1..], now, timeoutMs)
  }

  function Cleaned(r: Room, now: int, timeoutMs: nat): Room {
    Room(Young(r.high, now, timeoutMs), Young(r.normal, now, timeoutMs), Young(r.low, now, timeoutMs),
         YoungBatches(r.batches, now, timeoutMs))
  }

  function CleanedOut(r: Room, now: int, timeoutMs: nat): seq<Task> {
    Expired(r.high, now, timeoutMs) + Expired(r.normal, now, timeoutMs) + Expired(r.low, now, timeoutMs)
    + ExpiredBatches(r.batches, now, timeoutMs)
  }

  lemma {:induction false} YoungTimes(ts: seq<Task>, now: int, timeoutMs: nat, t: Task)
    ensures Times(ts, t) == Times(Young(ts, now, timeoutMs), t) + Times(Expired(ts, now, timeoutMs), t)
    ensures |ts| == |Young(ts, now, timeoutMs)| + |Expired(ts, now, timeoutMs)|
  {
    if ts != [] {
      var init, x := ts[..|ts| - 1], ts[|ts| - 1];
      assert ts == init + [x];
      YoungTimes(init, now, timeoutMs, t);
      TimesSnoc(init, x, t);
      TimesSnoc(Young(init, now, timeoutMs), x, t);
      TimesAppend([x], Expired(init, now, timeoutMs), t);
      TimesOne(x, t);
      assert Young(init, now, timeoutMs) + [] == Young(init, now, timeoutMs);
      assert [] + Expired(init, now, timeoutMs) == Expired(init, now, timeoutMs);
    }
  }

  /** Survivors keep their order; old tasks do not survive. */
  lemma {:induction false} YoungKeeps(ts: seq<Task>, now: int, timeoutMs: nat, c: Class, last: nat)
    requires Line(ts, c, last)
    ensures Line(Young(ts, now, timeoutMs), c, last)
    ensures forall i :: 0 <= i < |Young(ts, now, timeoutMs)| ==>
              && Young(ts, now, timeoutMs)[i].id <= ts[|ts| - 1].id
              && !TooOld(Young(ts, now, timeoutMs)[i].timestamp, now, timeoutMs)
  {
    if ts != [] {
      var init, x := ts[..|ts| - 1], ts[|ts| - 1];
      LineSlice(ts, c, last, 0, |ts| - 1);
      assert ts[0..|ts| - 1] == init;
      YoungKeeps(init, now, timeoutMs, c, last);
      if init != [] { assert init[|init| - 1].id < x.id; }
    }
  }

  lemma {:induction false} YoungBatchesTimes(bs: seq<Entry>, now: int, timeoutMs: nat, t: Task)
    ensures BatchTimes(bs, t)
            == BatchTimes(YoungBatches(bs, now, timeoutMs), t) + Times(ExpiredBatches(bs, now, timeoutMs), t)
    ensures BatchCount(bs) == BatchCount(YoungBatches(bs, now, timeoutMs)) + |ExpiredBatches(bs, now, timeoutMs)|
  {
    if bs != [] {
      YoungBatchesTimes(bs[1..], now, timeoutMs, t);
      var y, x := YoungBatches(bs[1..], now, timeoutMs), ExpiredBatches(bs[1..], now, timeoutMs);
      assert ([bs[0]] + y)[1..] == y && [] + y == y && [] + x == x;
      TimesAppend(bs[0].batch.tasks, x, t);
    }
  }

  lemma {:induction false} YoungBatchesKeeps(bs: seq<Entry>, now: int, timeoutMs: nat, last: nat)
    requires BatchesOk(bs, last)
    ensures BatchesOk(YoungBatches(bs, now, timeoutMs), last)
    ensures forall e :: e in YoungBatches(bs, now, timeoutMs) ==> e in bs
  {
    if bs != [] {
      YoungBatchesKeeps(bs[1..], now, timeoutMs, last);
      var y := YoungBatches(bs[1..], now, timeoutMs);
      forall i | 0 <= i < |y| ensures y[i].key != bs[0].key { assert y[i] in bs[1..]; }
    }
  }

  lemma CleanedKeeps(r: Room, now: int, timeoutMs: nat, last: nat)
    requires RoomInv(r, last)
    ensures RoomInv(Cleaned(r, now, timeoutMs), last)
  {
    YoungKeeps(r.high, now, timeoutMs, High, last);
    YoungKeeps(r.normal, now, timeoutMs, Normal, last);
    YoungKeeps(r.low, now, timeoutMs, Low, last);
    YoungBatchesKeeps(r.batches, now, timeoutMs, last);
  }

  /** What the cleanup takes out is exactly what it reports. */
  lemma CleanedTimes(r: Room, now: int, timeoutMs: nat, t: Task)
    ensures RoomTimes(r, t) == RoomTimes(Cleaned(r, now, timeoutMs), t) + Times(CleanedOut(r, now, timeoutMs), t)
    ensures Total(r) == Total(Cleaned(r, now, timeoutMs)) + |CleanedOut(r, now, timeoutMs)|
  {
    var h, n := Expired(r.high, now, timeoutMs), Expired(r.normal, now, timeoutMs);
    var l, b := Expired(r.low, now, timeoutMs), ExpiredBatches(r.batches, now, timeoutMs);
    YoungTimes(r.high, now, timeoutMs, t);
    YoungTimes(r.normal, now, timeoutMs, t);
    YoungTimes(r.low, now, timeoutMs, t);
    YoungBatchesTimes(r.batches, now, timeoutMs, t);
    TimesAppend(h + n + l, b, t);
    TimesAppend(h + n, l, t);
    TimesAppend(h, n, t);
  }

  // ---------------------------------------------------------------- forced reduction

  /** The order in which pops return a sequence's elements. */
  function TailFirst(ts: seq<Task>): seq<Task> {
    if ts == [] then [] else [ts[|ts| - 1]] + TailFirst(ts[..|ts| - 1])
  }

  lemma {:induction false} TailFirstTimes(ts: seq<Task>, t: Task)
    ensures Times(TailFirst(ts), t) == Times(ts, t)
    ensures |TailFirst(ts)| == |ts|
  {
    if ts != [] {
      var init, x := ts[..|ts| - 1], ts[|ts| - 1];
      assert ts == init + [x];
      TailFirstTimes(init, t);
      TimesSnoc(init, x, t);
      TimesAppend([x], TailFirst(init), t);
      TimesOne(x, t);
    }
  }

  /** How many low-priority tasks survive a forced reduction: the newest half goes. */
  function Survivors(low: seq<Task>): nat { |low| - |low| / 2 }

  lemma ReducedTimes(r: Room, t: Task)
    ensures
      var k := Survivors(r.low);
      var r' := r.(low := r.low[..k]);
      var out := TailFirst(r.low[k..]);
      && RoomTimes(r, t) == RoomTimes(r', t) + Times(out, t)
      && Total(r) == Total(r') + |out|
  {
    var k := Survivors(r.low);
    TimesSplit(r.low, k, t);
    TailFirstTimes(r.low[k..], t);
  }

  lemma ReducedKeeps(r: Room, last: nat)
    requires RoomInv(r, last)
    ensures RoomInv(r.(low := r.low[..Survivors(r.low)]), last)
  {
    var k := Survivors(r.low);
    LineSlice(r.low, Low, last, 0, k);
    assert r.low[0..k] == r.low[..k];
  }
}
