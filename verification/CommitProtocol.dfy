/**
 * The offset-commit protocol of the order consumers (order-consumer.ts and its Go twin consumer.go):
 * any number of consumer instances of one group, any number of partitions, crashes at any point.
 * The broker is a log per partition, with one committed offset.
 */
module CommitProtocol {
  import opened Tasks

  datatype Mode = AfterProcess | BeforeProcess

  datatype Config = Config(mode: Mode, crashAfter: nat, fromBeginning: bool)

  /**
   * Offsets low..high-1 are retained. `start` is where the run began, `attempts` the offsets
   * processed (or failed to process) since then, in order.
   */
  datatype Partition = Partition(
    low: nat, high: nat, committed: Option<nat>, owner: Option<nat>, position: nat,
    start: nat, attempts: seq<nat>)

  /** Where handleMessage stands: fetched, cleared for processing by an early commit, or processed. */
  datatype Phase = Fetched | Cleared | Done

  datatype Flight = Flight(partition: nat, offset: nat, phase: Phase)

  datatype Consumer = Consumer(alive: bool, flight: Option<Flight>, processed: nat)

  /** A row of order_events: which message was recorded. */
  datatype Row = Row(partition: nat, offset: nat)

  /**
   * Histories: `crashes` counts instances lost, `rows` what the store recorded, `owed` the partitions whose
   * next attempt repeats one that was not committed, `lost` the messages committed but never attempted.
   */
  datatype State = State(
    parts: seq<Partition>, consumers: seq<Consumer>, crashes: nat,
    rows: seq<Row>, owed: set<nat>, lost: seq<Row>)

  /** How a commit answers. The Go client reports a cancelled one as success; nothing is stored then. */
  datatype Answer = Stored | Refused | Swallowed

  datatype Event =
    | Append(p: nat)
    | Join
    | Assign(p: nat, k: nat)
    | Revoke(p: nat)
    | Fetch(k: nat, p: nat)
    | EarlyCommit(k: nat)
    | CancelledCommit(k: nat)
    | Process(k: nat, ok: bool)
    | Finish(k: nat, answer: Answer)
    | Crash(k: nat)

  // ---------------------------------------------------------------- steps

  /** Where a new owner starts reading. */
  function StartPosition(c: Config, q: Partition): nat {
    if q.committed.Some? then q.committed.value else if c.fromBeginning then q.low else q.high
  }

  predicate Working(s: State, k: nat) {
    k < |s.consumers| && s.consumers[k].alive && s.consumers[k].flight.Some?
    && s.consumers[k].flight.value.partition < |s.parts|
  }

  predicate AtCrashPoint(c: Config, s: State, k: nat)
    requires k < |s.consumers|
  {
    c.crashAfter > 0 && s.consumers[k].processed >= c.crashAfter
  }

  /** The instance is gone: its partitions are free, its message is dropped. */
  function Lose(s: State, k: nat): State
    requires k < |s.consumers|
  {
    var f := s.consumers[k].flight;
    s.(consumers := s.consumers[k := Consumer(false, None, s.consumers[k].processed)],
       parts := seq(|s.parts|, p requires 0 <= p < |s.parts| =>
                      if s.parts[p].owner == Some(k) then s.parts[p].(owner := None) else s.parts[p]),
       crashes := s.crashes + 1,
       owed := if f.Some? && f.value.phase == Done then s.owed + {f.value.partition} else s.owed,
       lost := if f.Some? && f.value.phase == Cleared then s.lost + [Row(f.value.partition, f.value.offset)]
               else s.lost)
  }

  function Commit(s: State, k: nat): State
    requires Working(s, k)
  {
    var f := s.consumers[k].flight.value;
    s.(parts := s.parts[f.partition := s.parts[f.partition].(committed := Some(f.offset + 1))])
  }

  function SetPhase(s: State, k: nat, phase: Phase): State
    requires Working(s, k)
  {
    var x := s.consumers[k];
    s.(consumers := s.consumers[k := x.(flight := Some(x.flight.value.(phase := phase)))])
  }

  /** process(): an attempt, recorded in the store if it succeeds. */
  function Attempt(s: State, k: nat, ok: bool): State
    requires Working(s, k)
  {
    var f := s.consumers[k].flight.value;
    var q := s.parts[f.partition];
    var x := s.consumers[k];
    s.(parts := s.parts[f.partition := q.(attempts := q.attempts + [f.offset])],
       consumers := s.consumers[k := Consumer(true, Some(f.(phase := Done)), x.processed + if ok then 1 else 0)],
       rows := if ok then s.rows + [Row(f.partition, f.offset)] else s.rows,
       owed := s.owed - {f.partition})
  }

  /** The message is done with: on to the next offset. */
  function Advance(s: State, k: nat): State
    requires Working(s, k)
  {
    var f := s.consumers[k].flight.value;
    s.(parts := s.parts[f.partition := s.parts[f.partition].(position := f.offset + 1)],
       consumers := s.consumers[k := s.consumers[k].(flight := None)])
  }

  /** The commit after processing. */
  function CommitLate(s: State, k: nat, answer: Answer): State
    requires Working(s, k)
  {
    match answer
    case Stored => Advance(Commit(s, k), k)
    case Refused => Lose(s, k)
    case Swallowed => Advance(s, k)
  }

  function Step(c: Config, s: State, e: Event): State {
    match e
    case Append(p) =>
      if p < |s.parts| then s.(parts := s.parts[p := s.parts[p].(high := s.parts[p].high + 1)]) else s
    case Join => s.(consumers := s.consumers + [Consumer(true, None, 0)])
    case Assign(p, k) =>
      if p < |s.parts| && s.parts[p].owner.None? && k < |s.consumers| && s.consumers[k].alive then
        s.(parts := s.parts[p := s.parts[p].(owner := Some(k), position := StartPosition(c, s.parts[p]))])
      else s
    case Revoke(p) =>
      if p < |s.parts| && Doing(s, p).None? then s.(parts := s.parts[p := s.parts[p].(owner := None)]) else s
    case Fetch(k, p) =>
      if && p < |s.parts| && k < |s.consumers| && s.consumers[k].alive && s.consumers[k].flight.None?
         && s.parts[p].owner == Some(k) && s.parts[p].position < s.parts[p].high
      then s.(consumers := s.consumers[k := s.consumers[k].(flight := Some(Flight(p, s.parts[p].position, Fetched)))])
      else s
    case EarlyCommit(k) =>
      if Working(s, k) && c.mode == BeforeProcess && s.consumers[k].flight.value.phase == Fetched
      then SetPhase(Commit(s, k), k, Cleared) else s
    case CancelledCommit(k) =>
      if Working(s, k) && c.mode == BeforeProcess && s.consumers[k].flight.value.phase == Fetched
      then SetPhase(s, k, Cleared) else s
    case Process(k, ok) =>
      if Working(s, k) && s.consumers[k].flight.value.phase == (if c.mode == BeforeProcess then Cleared else Fetched)
      then Attempt(s, k, ok) else s
    case Finish(k, answer) =>
      if !Working(s, k) || s.consumers[k].flight.value.phase != Done then s
      else if AtCrashPoint(c, s, k) then Lose(s, k)
      else if c.mode == BeforeProcess then Advance(s, k)
      else CommitLate(s, k, answer)
    case Crash(k) => if k < |s.consumers| && s.consumers[k].alive then Lose(s, k) else s
  }

  function Run(c: Config, s: State, es: seq<Event>): State {
    if es == [] then s else Step(c, Run(c, s, es[..|es| - 1]), es[|es| - 1])
  }

  lemma RunOneMore(c: Config, s: State, es: seq<Event>, e: Event)
    ensures Run(c, s, es + [e]) == Step(c, Run(c, s, es), e)
  {
    assert (es + [e])[..|es|] == es;
  }

  // ---------------------------------------------------------------- invariant

  /** The phase of the message being handled on partition `p`, if there is one. */
  function Doing(s: State, p: nat): Option<Phase>
    requires p < |s.parts|
  {
    var o := s.parts[p].owner;
    if o.Some? && o.value < |s.consumers| && s.consumers[o.value].flight.Some?
       && s.consumers[o.value].flight.value.partition == p
    then Some(s.consumers[o.value].flight.value.phase) else None
  }

  /** The committed offset, or where an uncommitted group begins. */
  function Committed(q: Partition): nat {
    if q.committed.Some? then q.committed.value else q.low
  }

  ghost predicate Stepwise(a: seq<nat>) {
    forall i :: 0 <= i < |a| - 1 ==> a[i + 1] == a[i] || a[i + 1] == a[i] + 1
  }

  ghost predicate Climbing(a: seq<nat>) {
    forall i, j :: 0 <= i < j < |a| ==> a[i] < a[j]
  }

  /** The offset at the commit was attempted but its commit never arrived. */
  ghost predicate Unsaved(q: Partition) {
    q.attempts != [] && q.attempts[|q.attempts| - 1] == Committed(q)
  }

  ghost predicate Grounded(c: Config, q: Partition) {
    && (q.committed.Some? || c.fromBeginning)
    && q.start <= Committed(q) <= q.high
  }

  /** At-least-once: attempts move by at most one and cover everything below the commit. */
  ghost predicate AfterOk(c: Config, q: Partition, doing: Option<Phase>, owed: bool) {
    && Grounded(c, q)
    && Stepwise(q.attempts)
    && (q.attempts == [] ==> Committed(q) == q.start)
    && (q.attempts != [] ==> q.attempts[0] == q.start)
    && (q.attempts != [] ==> Unsaved(q) || q.attempts[|q.attempts| - 1] + 1 == Committed(q))
    && (forall i :: 0 <= i < |q.attempts| ==> q.start <= q.attempts[i] <= Committed(q))
    && (forall o :: q.start <= o < Committed(q) ==> o in q.attempts)
    && (q.owner.Some? ==> q.position == Committed(q))
    && (doing.Some? ==> Committed(q) < q.high && doing != Some(Cleared))
    && (doing == Some(Done) ==> Unsaved(q))
    && (owed <==> Unsaved(q) && doing != Some(Done))
  }

  /** At-most-once: attempts climb, and each committed offset is attempted, being handled, or lost. */
  ghost predicate BeforeOk(c: Config, p: nat, q: Partition, doing: Option<Phase>, lost: seq<Row>) {
    && Grounded(c, q)
    && Climbing(q.attempts)
    && (forall i :: 0 <= i < |q.attempts| ==> q.start <= q.attempts[i] < Committed(q))
    && (q.owner.Some? && (doing.None? || doing == Some(Fetched)) ==> q.position == Committed(q))
    && (doing == Some(Fetched) ==> Committed(q) < q.high)
    && (doing == Some(Cleared) || doing == Some(Done) ==> q.start <= q.position && q.position + 1 == Committed(q))
    && (doing == Some(Cleared) ==> forall i :: 0 <= i < |q.attempts| ==> q.attempts[i] < q.position)
    && (forall o :: q.start <= o < Committed(q) ==>
          o in q.attempts || Row(p, o) in lost || (doing == Some(Cleared) && o == q.position))
  }

  ghost predicate PartOk(c: Config, p: nat, q: Partition, doing: Option<Phase>, owed: bool, lost: seq<Row>) {
    match c.mode
    case AfterProcess => AfterOk(c, q, doing, owed)
    case BeforeProcess => BeforeOk(c, p, q, doing, lost)
  }

  /** Owners are alive; a message in flight is at its owner's position. */
  ghost predicate Owned(s: State) {
    && (forall p :: 0 <= p < |s.parts| && s.parts[p].owner.Some? ==>
          s.parts[p].owner.value < |s.consumers| && s.consumers[s.parts[p].owner.value].alive)
    && (forall k :: 0 <= k < |s.consumers| && s.consumers[k].flight.Some? ==>
          FlightOk(s, k, s.consumers[k].flight.value))
  }

  ghost predicate FlightOk(s: State, k: nat, f: Flight)
    requires k < |s.consumers|
  {
    && s.consumers[k].alive
    && f.partition < |s.parts|
    && s.parts[f.partition].owner == Some(k)
    && s.parts[f.partition].position == f.offset
  }

  ghost predicate PartsOk(c: Config, s: State) {
    forall p :: 0 <= p < |s.parts| ==> PartOk(c, p, s.parts[p], Doing(s, p), p in s.owed, s.lost)
  }

  /** How many different elements a sequence has. */
  function NumDistinct<T(==)>(ts: seq<T>): nat {
    if ts == [] then 0
    else NumDistinct(ts[..|ts| - 1]) + if ts[|ts| - 1] in ts[..|ts| - 1] then 0 else 1
  }

  lemma {:induction false} DistinctIsCardinality<T>(ts: seq<T>)
    ensures NumDistinct(ts) == |set i | 0 <= i < |ts| :: ts[i]|
  {
    if ts != [] {
      var n := |ts| - 1;
      DistinctIsCardinality(ts[..n]);
      var a, b := set i | 0 <= i < n :: ts[..n][i], set i | 0 <= i < |ts| :: ts[i];
      assert b == a + {ts[n]};
      assert ts[n] in a <==> ts[n] in ts[..n];
    }
  }

  lemma DistinctSnoc<T>(ts: seq<T>, x: T)
    ensures NumDistinct(ts + [x]) == NumDistinct(ts) + if x in ts then 0 else 1
  {
    assert (ts + [x])[..|ts|] == ts;
  }

  /** Recorded messages were attempted; repetitions and losses are paid for by crashes. */
  ghost predicate BooksOk(c: Config, s: State) {
    && (forall i :: 0 <= i < |s.rows| ==>
          s.rows[i].partition < |s.parts| && s.rows[i].offset in s.parts[s.rows[i].partition].attempts)
    && (forall p :: p in s.owed ==> p < |s.parts|)
    && |s.lost| <= s.crashes
    && match c.mode
       case AfterProcess => |s.rows| + |s.owed| <= NumDistinct(s.rows) + s.crashes
       case BeforeProcess => |s.rows| == NumDistinct(s.rows)
  }

  ghost predicate Inv(c: Config, s: State) {
    PartsOk(c, s) && Owned(s) && BooksOk(c, s)
  }

  /** A group at rest: nobody owns anything, nothing attempted or recorded yet. */
  ghost predicate AtRest(c: Config, s: State) {
    && s.rows == [] && s.owed == {} && s.lost == []
    && (forall k :: 0 <= k < |s.consumers| ==> s.consumers[k].flight.None?)
    && (forall p :: 0 <= p < |s.parts| ==>
          && s.parts[p].owner.None? && s.parts[p].attempts == []
          && Grounded(c, s.parts[p]) && Committed(s.parts[p]) == s.parts[p].start)
  }

  lemma AtRestInv(c: Config, s: State)
    requires AtRest(c, s)
    ensures Inv(c, s)
  {
  }

  // ---------------------------------------------------------------- one instance handling one message

  /** `s'` differs from `s` in consumer `k`, in partition `p0`, and in the books. */
  ghost predicate Local(s: State, s': State, k: nat, p0: nat) {
    && k < |s.consumers| == |s'.consumers| && p0 < |s.parts| == |s'.parts|
    && (forall j :: 0 <= j < |s.consumers| && j != k ==> s'.consumers[j] == s.consumers[j])
    && (forall p :: 0 <= p < |s.parts| && p != p0 ==> s'.parts[p] == s.parts[p] && (p in s'.owed <==> p in s.owed))
    && s'.parts[p0].owner == s.parts[p0].owner == Some(k)
    && s'.consumers[k].alive
    && (s.consumers[k].flight.Some? ==> s.consumers[k].flight.value.partition == p0)
    && (s'.consumers[k].flight.Some? ==> FlightOk(s', k, s'.consumers[k].flight.value)
                                         && s'.consumers[k].flight.value.partition == p0)
    && s'.lost == s.lost
  }

  lemma LocalOwned(s: State, s': State, k: nat, p0: nat)
    requires Owned(s) && Local(s, s', k, p0)
    ensures Owned(s')
  {
    forall j | 0 <= j < |s'.consumers| && s'.consumers[j].flight.Some?
      ensures FlightOk(s', j, s'.consumers[j].flight.value)
    {
      if j != k { assert FlightOk(s, j, s.consumers[j].flight.value); }
    }
  }

  lemma LocalKeeps(c: Config, s: State, s': State, k: nat, p0: nat)
    requires PartsOk(c, s) && Owned(s) && Local(s, s', k, p0)
    requires PartOk(c, p0, s'.parts[p0], Doing(s', p0), p0 in s'.owed, s'.lost)
    ensures PartsOk(c, s') && Owned(s')
  {
    forall p | 0 <= p < |s'.parts| ensures PartOk(c, p, s'.parts[p], Doing(s', p), p in s'.owed, s'.lost) {
      if p != p0 { assert Doing(s', p) == Doing(s, p); }
    }
    LocalOwned(s, s', k, p0);
  }

  lemma {:induction false} StepwiseMonotone(a: seq<nat>, i: nat, j: nat)
    requires Stepwise(a) && i <= j < |a|
    ensures a[i] <= a[j]
    decreases j - i
  {
    if i < j {
      StepwiseMonotone(a, i, j - 1);
      assert a[j - 1 + 1] == a[j - 1] || a[j - 1 + 1] == a[j - 1] + 1;
    }
  }

  lemma FlightFacts(c: Config, s: State, k: nat)
    requires PartsOk(c, s) && Owned(s) && Working(s, k)
    ensures
      var f := s.consumers[k].flight.value;
      && FlightOk(s, k, f)
      && Doing(s, f.partition) == Some(f.phase)
      && PartOk(c, f.partition, s.parts[f.partition], Some(f.phase), f.partition in s.owed, s.lost)
  {
    var f := s.consumers[k].flight.value;
    assert FlightOk(s, k, f);
    assert Doing(s, f.partition) == Some(f.phase);
  }

  // -- fetch

  lemma FetchKeeps(c: Config, s: State, k: nat, p: nat)
    requires Inv(c, s)
    ensures Inv(c, Step(c, s, Fetch(k, p)))
  {
    var s' := Step(c, s, Fetch(k, p));
    if s' != s {
      assert Doing(s, p) == None;
      assert Doing(s', p) == Some(Fetched);
      LocalKeeps(c, s, s', k, p);
    }
  }

  // -- attempt

  /** The attempt of the offset at the commit, in after-process mode. */
  lemma AfterAttempt(c: Config, q: Partition, q': Partition, owed: bool)
    requires AfterOk(c, q, Some(Fetched), owed) && q.owner.Some?
    requires q' == q.(attempts := q.attempts + [q.position])
    ensures AfterOk(c, q', Some(Done), false)
    ensures q.position in q.attempts ==> owed
  {
    if q.position in q.attempts {
      var i :| 0 <= i < |q.attempts| && q.attempts[i] == q.position;
      StepwiseMonotone(q.attempts, i, |q.attempts| - 1);
    }
  }

  lemma BeforeAttempt(c: Config, p: nat, q: Partition, q': Partition, lost: seq<Row>)
    requires BeforeOk(c, p, q, Some(Cleared), lost)
    requires q' == q.(attempts := q.attempts + [q.position])
    ensures BeforeOk(c, p, q', Some(Done), lost)
    ensures q.position !in q.attempts
  {
  }

  lemma AttemptRows(c: Config, s: State, k: nat, ok: bool)
    requires BooksOk(c, s) && Working(s, k)
    ensures
      var s' := Attempt(s, k, ok);
      forall i :: 0 <= i < |s'.rows| ==>
        s'.rows[i].partition < |s'.parts| && s'.rows[i].offset in s'.parts[s'.rows[i].partition].attempts
  {
    var f := s.consumers[k].flight.value;
    var s' := Attempt(s, k, ok);
    forall i | 0 <= i < |s'.rows|
      ensures s'.rows[i].partition < |s'.parts| && s'.rows[i].offset in s'.parts[s'.rows[i].partition].attempts
    {
      if i < |s.rows| { assert s'.rows[i] == s.rows[i]; }
    }
  }

  /** A repeated row is paid for by the debt of its partition. */
  lemma AttemptBooks(c: Config, s: State, k: nat, ok: bool)
    requires Inv(c, s) && Working(s, k)
    requires
      var f := s.consumers[k].flight.value;
      match c.mode
      case AfterProcess => f.offset in s.parts[f.partition].attempts ==> f.partition in s.owed
      case BeforeProcess => f.offset !in s.parts[f.partition].attempts
    ensures BooksOk(c, Attempt(s, k, ok))
  {
    var f := s.consumers[k].flight.value;
    var r := Row(f.partition, f.offset);
    AttemptRows(c, s, k, ok);
    DistinctSnoc(s.rows, r);
    assert r in s.rows ==> f.offset in s.parts[f.partition].attempts;
    PayDebt(s.owed, f.partition);
  }

  lemma PayDebt(owed: set<nat>, p: nat)
    ensures |owed - {p}| == |owed| - if p in owed then 1 else 0
  {
    assert p in owed ==> owed == (owed - {p}) + {p};
    assert p !in owed ==> owed - {p} == owed;
  }

  lemma ProcessKeeps(c: Config, s: State, k: nat, ok: bool)
    requires Inv(c, s)
    ensures Inv(c, Step(c, s, Process(k, ok)))
  {
    if Working(s, k) && s.consumers[k].flight.value.phase == (if c.mode == BeforeProcess then Cleared else Fetched) {
      FlightFacts(c, s, k);
      var f := s.consumers[k].flight.value;
      var s' := Attempt(s, k, ok);
      var q, q' := s.parts[f.partition], s'.parts[f.partition];
      assert Doing(s', f.partition) == Some(Done);
      if c.mode == AfterProcess {
        AfterAttempt(c, q, q', f.partition in s.owed);
      } else {
        BeforeAttempt(c, f.partition, q, q', s.lost);
      }
      LocalKeeps(c, s, s', k, f.partition);
      AttemptBooks(c, s, k, ok);
    }
  }

  // -- commits

  lemma SameBooks(c: Config, s: State, s': State)
    requires BooksOk(c, s) && s'.rows == s.rows && s'.owed == s.owed && s'.lost == s.lost && s'.crashes == s.crashes
    requires |s'.parts| == |s.parts|
    requires forall p :: 0 <= p < |s.parts| ==> s'.parts[p].attempts == s.parts[p].attempts
    ensures BooksOk(c, s')
  {
  }

  lemma EarlyCommitKeeps(c: Config, s: State, k: nat)
    requires Inv(c, s)
    ensures Inv(c, Step(c, s, EarlyCommit(k)))
  {
    if Working(s, k) && c.mode == BeforeProcess && s.consumers[k].flight.value.phase == Fetched {
      FlightFacts(c, s, k);
      var p := s.consumers[k].flight.value.partition;
      var s' := SetPhase(Commit(s, k), k, Cleared);
      assert Doing(s', p) == Some(Cleared);
      BeforeCommitted(c, p, s.parts[p], s'.parts[p], s.lost);
      LocalKeeps(c, s, s', k, p);
      SameBooks(c, s, s');
    }
  }

  lemma BeforeCommitted(c: Config, p: nat, q: Partition, q': Partition, lost: seq<Row>)
    requires BeforeOk(c, p, q, Some(Fetched), lost) && q.owner.Some?
    requires q' == q.(committed := Some(q.position + 1))
    ensures BeforeOk(c, p, q', Some(Cleared), lost)
  {
  }

  /** Processing after a cancelled early commit breaks at-most-once; anything else is in order. */
  lemma CancelledCommitExactly(c: Config, s: State, k: nat)
    requires Inv(c, s)
    ensures
      Inv(c, Step(c, s, CancelledCommit(k))) <==>
      !(c.mode == BeforeProcess && Working(s, k) && s.consumers[k].flight.value.phase == Fetched)
  {
    if Working(s, k) && c.mode == BeforeProcess && s.consumers[k].flight.value.phase == Fetched {
      FlightFacts(c, s, k);
      var p := s.consumers[k].flight.value.partition;
      var s' := SetPhase(s, k, Cleared);
      assert Doing(s', p) == Some(Cleared);
      assert !BeforeOk(c, p, s'.parts[p], Some(Cleared), s'.lost);
      assert !PartOk(c, p, s'.parts[p], Doing(s', p), p in s'.owed, s'.lost);
    }
  }

  lemma CommitAndAdvance(c: Config, s: State, k: nat)
    requires Inv(c, s) && Working(s, k) && s.consumers[k].flight.value.phase == Done && c.mode == AfterProcess
    ensures Inv(c, Advance(Commit(s, k), k))
  {
    FlightFacts(c, s, k);
    var p := s.consumers[k].flight.value.partition;
    var s' := Advance(Commit(s, k), k);
    assert Doing(s', p) == None;
    AfterAdvanced(c, s.parts[p], s'.parts[p], p in s.owed);
    assert s'.parts[p] == s.parts[p].(committed := Some(s.parts[p].position + 1), position := s.parts[p].position + 1);
    LocalKeeps(c, s, s', k, p);
    SameBooks(c, s, s');
  }

  lemma AdvanceKeeps(c: Config, s: State, k: nat)
    requires Inv(c, s) && Working(s, k) && s.consumers[k].flight.value.phase == Done && c.mode == BeforeProcess
    ensures Inv(c, Advance(s, k))
  {
    FlightFacts(c, s, k);
    var p := s.consumers[k].flight.value.partition;
    var s' := Advance(s, k);
    assert Doing(s', p) == None;
    BeforeAdvanced(c, p, s.parts[p], s'.parts[p], s.lost);
    LocalKeeps(c, s, s', k, p);
    SameBooks(c, s, s');
  }

  lemma AfterAdvanced(c: Config, q: Partition, q': Partition, owed: bool)
    requires AfterOk(c, q, Some(Done), owed) && q.owner.Some?
    requires q' == q.(committed := Some(q.position + 1), position := q.position + 1)
    ensures AfterOk(c, q', None, owed)
  {
    assert q.attempts[|q.attempts| - 1] == q.position;
  }

  lemma BeforeAdvanced(c: Config, p: nat, q: Partition, q': Partition, lost: seq<Row>)
    requires BeforeOk(c, p, q, Some(Done), lost) && q' == q.(position := q.position + 1)
    ensures BeforeOk(c, p, q', None, lost)
  {
  }

  // -- crash

  lemma LosePart(c: Config, p: nat, q: Partition, doing: Option<Phase>, owed: bool, lost: seq<Row>, lost': seq<Row>)
    requires PartOk(c, p, q, doing, owed, lost) && lost <= lost'
    requires doing == Some(Cleared) ==> Row(p, q.position) in lost'
    ensures PartOk(c, p, q.(owner := None), None, owed || doing == Some(Done), lost')
  {
    assert forall r :: r in lost ==> r in lost';
  }

  lemma LoseParts(c: Config, s: State, k: nat, p: nat)
    requires Inv(c, s) && k < |s.consumers| && p < |s.parts|
    ensures
      var s' := Lose(s, k);
      PartOk(c, p, s'.parts[p], Doing(s', p), p in s'.owed, s'.lost)
  {
    var s' := Lose(s, k);
    var q, doing := s.parts[p], Doing(s, p);
    if s.consumers[k].flight.Some? { assert FlightOk(s, k, s.consumers[k].flight.value); }
    if q.owner == Some(k) {
      LosePart(c, p, q, doing, p in s.owed, s.lost, s'.lost);
    } else {
      assert Doing(s', p) == doing;
      assert p in s'.owed <==> p in s.owed;
      assert forall r :: r in s.lost ==> r in s'.lost;
    }
  }

  lemma LoseKeeps(c: Config, s: State, k: nat)
    requires Inv(c, s) && k < |s.consumers|
    ensures Inv(c, Lose(s, k))
  {
    var s' := Lose(s, k);
    forall p | 0 <= p < |s'.parts| ensures PartOk(c, p, s'.parts[p], Doing(s', p), p in s'.owed, s'.lost) {
      LoseParts(c, s, k, p);
    }
    LoseOwned(s, k);
    LoseBooks(c, s, k);
  }

  lemma LoseOwned(s: State, k: nat)
    requires Owned(s) && k < |s.consumers|
    ensures Owned(Lose(s, k))
  {
    var s' := Lose(s, k);
    forall j | 0 <= j < |s'.consumers| && s'.consumers[j].flight.Some?
      ensures FlightOk(s', j, s'.consumers[j].flight.value)
    {
      assert FlightOk(s, j, s.consumers[j].flight.value);
    }
  }

  lemma LoseBooks(c: Config, s: State, k: nat)
    requires Inv(c, s) && k < |s.consumers|
    ensures BooksOk(c, Lose(s, k))
  {
    var s' := Lose(s, k);
    if s.consumers[k].flight.Some? { assert FlightOk(s, k, s.consumers[k].flight.value); }
    assert |s'.owed| <= |s.owed| + 1;
    forall i | 0 <= i < |s'.rows|
      ensures s'.rows[i].partition < |s'.parts| && s'.rows[i].offset in s'.parts[s'.rows[i].partition].attempts
    {
      assert s'.parts[s'.rows[i].partition].attempts == s.parts[s.rows[i].partition].attempts;
    }
  }

  // -- membership and new messages

  lemma GrownPart(c: Config, p: nat, q: Partition, doing: Option<Phase>, owed: bool, lost: seq<Row>)
    requires PartOk(c, p, q, doing, owed, lost)
    ensures PartOk(c, p, q.(high := q.high + 1), doing, owed, lost)
  {
  }

  /** Only partition `p` changed. */
  lemma OnePartKeeps(c: Config, s: State, s': State, p: nat)
    requires Inv(c, s) && p < |s.parts| == |s'.parts| && s' == s.(parts := s.parts[p := s'.parts[p]])
    requires s'.parts[p].attempts == s.parts[p].attempts
    requires PartOk(c, p, s'.parts[p], Doing(s', p), p in s.owed, s.lost)
    requires Owned(s')
    ensures Inv(c, s')
  {
    forall r | 0 <= r < |s'.parts| ensures PartOk(c, r, s'.parts[r], Doing(s', r), r in s'.owed, s'.lost) {
      if r != p { assert Doing(s', r) == Doing(s, r); }
    }
    SameBooks(c, s, s');
  }

  lemma GrownOwned(s: State, s': State, p: nat)
    requires Owned(s) && p < |s.parts| && s' == s.(parts := s.parts[p := s.parts[p].(high := s.parts[p].high + 1)])
    ensures Owned(s')
    ensures Doing(s', p) == Doing(s, p)
  {
    forall j | 0 <= j < |s'.consumers| && s'.consumers[j].flight.Some?
      ensures FlightOk(s', j, s'.consumers[j].flight.value)
    {
      assert FlightOk(s, j, s.consumers[j].flight.value);
    }
  }

  lemma AppendKeeps(c: Config, s: State, p: nat)
    requires Inv(c, s) && p < |s.parts|
    ensures Inv(c, Step(c, s, Append(p)))
  {
    var s' := Step(c, s, Append(p));
    GrownOwned(s, s', p);
    GrownPart(c, p, s.parts[p], Doing(s, p), p in s.owed, s.lost);
    OnePartKeeps(c, s, s', p);
  }

  lemma JoinKeeps(c: Config, s: State)
    requires Inv(c, s)
    ensures Inv(c, Step(c, s, Join))
  {
    var s' := Step(c, s, Join);
    forall r | 0 <= r < |s'.parts| ensures PartOk(c, r, s'.parts[r], Doing(s', r), r in s'.owed, s'.lost) {
      assert Doing(s', r) == Doing(s, r);
    }
    JoinOwned(c, s);
  }

  lemma JoinOwned(c: Config, s: State)
    requires Owned(s)
    ensures Owned(Step(c, s, Join))
  {
    var s' := Step(c, s, Join);
    forall j | 0 <= j < |s'.consumers| && s'.consumers[j].flight.Some?
      ensures FlightOk(s', j, s'.consumers[j].flight.value)
    {
      assert FlightOk(s, j, s.consumers[j].flight.value);
    }
  }

  lemma HandedOwned(s: State, s': State, p: nat)
    requires Owned(s) && p < |s.parts| == |s'.parts| && Doing(s, p).None?
    requires s' == s.(parts := s.parts[p := s'.parts[p]])
    requires
      var q := s'.parts[p];
      q.owner.Some? ==>
        s.parts[p].owner.None? && q.owner.value < |s.consumers| && s.consumers[q.owner.value].alive
    ensures Owned(s') && Doing(s', p).None?
  {
    forall j | 0 <= j < |s'.consumers| && s'.consumers[j].flight.Some?
      ensures FlightOk(s', j, s'.consumers[j].flight.value) && s'.consumers[j].flight.value.partition != p
    {
      assert FlightOk(s, j, s.consumers[j].flight.value);
    }
  }

  /** A partition changes hands while none of its messages is being handled. */
  lemma HandOver(c: Config, s: State, p: nat, q: Partition)
    requires Inv(c, s) && p < |s.parts| && Doing(s, p).None?
    requires q == s.parts[p].(owner := q.owner, position := q.position)
    requires q.owner.Some? ==> q.owner.value < |s.consumers| && s.consumers[q.owner.value].alive
                               && q.position == Committed(q)
    requires q.owner.Some? ==> s.parts[p].owner.None?
    ensures Inv(c, s.(parts := s.parts[p := q]))
  {
    var s' := s.(parts := s.parts[p := q]);
    HandedPart(c, p, s.parts[p], q, p in s.owed, s.lost);
    HandedOwned(s, s', p);
    OnePartKeeps(c, s, s', p);
  }

  lemma HandedPart(c: Config, p: nat, q: Partition, q': Partition, owed: bool, lost: seq<Row>)
    requires PartOk(c, p, q, None, owed, lost) && q' == q.(owner := q'.owner, position := q'.position)
    requires q'.owner.Some? ==> q'.position == Committed(q)
    ensures PartOk(c, p, q', None, owed, lost)
  {
  }

  // ---------------------------------------------------------------- every step, every run

  /** A commit that stored nothing is taken for done: the early one, or the one after processing. */
  predicate SwallowsCommit(c: Config, s: State, e: Event) {
    match e
    case CancelledCommit(k) =>
      c.mode == BeforeProcess && Working(s, k) && s.consumers[k].flight.value.phase == Fetched
    case Finish(k, answer) =>
      && c.mode == AfterProcess && Working(s, k) && s.consumers[k].flight.value.phase == Done
      && !AtCrashPoint(c, s, k) && answer == Swallowed
    case _ => false
  }

  /** The events that are not in order are the swallowed commits. */
  predicate InOrder(c: Config, s: State, e: Event) { !SwallowsCommit(c, s, e) }

  lemma AssignKeeps(c: Config, s: State, p: nat, k: nat)
    requires Inv(c, s)
    ensures Inv(c, Step(c, s, Assign(p, k)))
  {
    if p < |s.parts| && s.parts[p].owner.None? && k < |s.consumers| && s.consumers[k].alive {
      assert PartOk(c, p, s.parts[p], Doing(s, p), p in s.owed, s.lost);
      HandOver(c, s, p, s.parts[p].(owner := Some(k), position := StartPosition(c, s.parts[p])));
    }
  }

  /** Moving on from an attempt that was not stored leaves the position ahead of the commit. */
  lemma AdvanceBreaks(c: Config, s: State, k: nat)
    requires Inv(c, s) && Working(s, k) && s.consumers[k].flight.value.phase == Done && c.mode == AfterProcess
    ensures !Inv(c, Advance(s, k))
  {
    FlightFacts(c, s, k);
    var p := s.consumers[k].flight.value.partition;
    var s' := Advance(s, k);
    assert !AfterOk(c, s'.parts[p], Doing(s', p), p in s'.owed);
    assert !PartOk(c, p, s'.parts[p], Doing(s', p), p in s'.owed, s'.lost);
  }

  lemma FinishExactly(c: Config, s: State, k: nat, answer: Answer)
    requires Inv(c, s)
    ensures Inv(c, Step(c, s, Finish(k, answer))) <==> InOrder(c, s, Finish(k, answer))
  {
    if Working(s, k) && s.consumers[k].flight.value.phase == Done {
      if AtCrashPoint(c, s, k) {
        LoseKeeps(c, s, k);
      } else if c.mode == BeforeProcess {
        AdvanceKeeps(c, s, k);
      } else {
        match answer
        case Stored => CommitAndAdvance(c, s, k);
        case Refused => LoseKeeps(c, s, k);
        case Swallowed => AdvanceBreaks(c, s, k);
      }
    }
  }

  /** From a good state an event leads to a good state exactly if it is in order. */
  lemma StepKeepsExactly(c: Config, s: State, e: Event)
    requires Inv(c, s)
    ensures Inv(c, Step(c, s, e)) <==> InOrder(c, s, e)
  {
    match e
    case CancelledCommit(k) => CancelledCommitExactly(c, s, k);
    case Finish(k, answer) => FinishExactly(c, s, k, answer);
    case Fetch(k, p) => FetchKeeps(c, s, k, p);
    case EarlyCommit(k) => EarlyCommitKeeps(c, s, k);
    case Process(k, ok) => ProcessKeeps(c, s, k, ok);
    case _ => MembershipKeeps(c, s, e);
  }

  /** New messages, new and lost instances, and partitions that change hands. */
  lemma MembershipKeeps(c: Config, s: State, e: Event)
    requires Inv(c, s) && (e.Append? || e.Join? || e.Assign? || e.Revoke? || e.Crash?)
    ensures Inv(c, Step(c, s, e))
  {
    match e
    case Append(p) => if p < |s.parts| { AppendKeeps(c, s, p); }
    case Join => JoinKeeps(c, s);
    case Assign(p, k) => AssignKeeps(c, s, p, k);
    case Revoke(p) => RevokeKeeps(c, s, p);
    case Crash(k) => CrashKeeps(c, s, k);
  }

  lemma CrashKeeps(c: Config, s: State, k: nat)
    requires Inv(c, s)
    ensures Inv(c, Step(c, s, Crash(k)))
  {
    if k < |s.consumers| && s.consumers[k].alive {
      assert Step(c, s, Crash(k)) == Lose(s, k);
      LoseKeeps(c, s, k);
    }
  }

  lemma RevokeKeeps(c: Config, s: State, p: nat)
    requires Inv(c, s)
    ensures Inv(c, Step(c, s, Revoke(p)))
  {
    if p < |s.parts| && Doing(s, p).None? { HandOver(c, s, p, s.parts[p].(owner := None)); }
  }

  ghost predicate OrderlyRun(c: Config, s: State, es: seq<Event>) {
    forall n :: 0 <= n < |es| ==> InOrder(c, Run(c, s, es[..n]), es[n])
  }

  lemma {:induction false} RunKeeps(c: Config, s: State, es: seq<Event>)
    requires AtRest(c, s) && OrderlyRun(c, s, es)
    ensures Inv(c, Run(c, s, es))
  {
    if es == [] {
      AtRestInv(c, s);
    } else {
      var init := es[..|es| - 1];
      forall n | 0 <= n < |init| ensures InOrder(c, Run(c, s, init[..n]), init[n]) {
        assert init[..n] == es[..n];
      }
      RunKeeps(c, s, init);
      StepKeepsExactly(c, Run(c, s, init), es[|es| - 1]);
    }
  }
}
