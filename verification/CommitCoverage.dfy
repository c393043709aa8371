/**
 * What after-process keeps on every run, swallowed commits included: no offset is skipped,
 * and everything below the commit was attempted.
 */
module CommitCoverage {
  import opened Tasks
  import opened CommitProtocol

  /** An attempt may fall back, but never runs ahead of its predecessor by more than one. */
  ghost predicate NoSkip(a: seq<nat>) {
    forall i :: 0 <= i < |a| - 1 ==> a[i + 1] <= a[i] + 1
  }

  /** Everything from the start up to `n` was attempted, and the last attempt reaches up to it. */
  ghost predicate Reached(q: Partition, n: nat) {
    && (forall o :: q.start <= o < n ==> o in q.attempts)
    && q.start <= n <= q.high
    && n <= if q.attempts == [] then q.start else q.attempts[|q.attempts| - 1] + 1
  }

  ghost predicate PartCovered(c: Config, q: Partition, doing: Option<Phase>) {
    && (q.committed.Some? || c.fromBeginning)
    && NoSkip(q.attempts)
    && (q.attempts != [] ==> q.attempts[0] == q.start)
    && Reached(q, Committed(q))
    && (q.owner.Some? ==> Committed(q) <= q.position && Reached(q, q.position))
    && (doing.Some? ==> q.position < q.high)
    && (doing == Some(Done) ==> q.attempts != [] && q.attempts[|q.attempts| - 1] == q.position)
  }

  ghost predicate Covered(c: Config, s: State) {
    Owned(s) && forall p :: 0 <= p < |s.parts| ==> PartCovered(c, s.parts[p], Doing(s, p))
  }

  lemma AtRestCovered(c: Config, s: State)
    requires AtRest(c, s)
    ensures Covered(c, s)
  {
    forall p | 0 <= p < |s.parts| ensures PartCovered(c, s.parts[p], Doing(s, p)) {
      assert Grounded(c, s.parts[p]);
    }
  }

  // ---------------------------------------------------------------- one partition

  lemma AttemptCovers(c: Config, q: Partition, q': Partition)
    requires PartCovered(c, q, Some(Fetched)) && q.owner.Some? && q' == q.(attempts := q.attempts + [q.position])
    ensures PartCovered(c, q', Some(Done))
  {
    assert forall o :: o in q.attempts ==> o in q'.attempts;
  }

  lemma StoredCovers(c: Config, q: Partition, q': Partition)
    requires PartCovered(c, q, Some(Done)) && q.owner.Some?
    requires q' == q.(committed := Some(q.position + 1), position := q.position + 1)
    ensures PartCovered(c, q', None)
  {
    assert q.position in q.attempts;
  }

  lemma SwallowedCovers(c: Config, q: Partition, q': Partition)
    requires PartCovered(c, q, Some(Done)) && q.owner.Some? && q' == q.(position := q.position + 1)
    ensures PartCovered(c, q', None)
  {
    assert q.position in q.attempts;
  }

  // ---------------------------------------------------------------- one step

  lemma LocalCovers(c: Config, s: State, s': State, k: nat, p0: nat)
    requires Covered(c, s) && Local(s, s', k, p0) && PartCovered(c, s'.parts[p0], Doing(s', p0))
    ensures Covered(c, s')
  {
    LocalOwned(s, s', k, p0);
    forall p | 0 <= p < |s'.parts| ensures PartCovered(c, s'.parts[p], Doing(s', p)) {
      if p != p0 { assert Doing(s', p) == Doing(s, p); }
    }
  }

  lemma FlightDoing(s: State, k: nat)
    requires Owned(s) && Working(s, k)
    ensures
      var f := s.consumers[k].flight.value;
      FlightOk(s, k, f) && Doing(s, f.partition) == Some(f.phase)
  {
  }

  lemma FetchCovers(c: Config, s: State, k: nat, p: nat)
    requires Covered(c, s)
    ensures Covered(c, Step(c, s, Fetch(k, p)))
  {
    var s' := Step(c, s, Fetch(k, p));
    if s' != s {
      assert Doing(s', p) == Some(Fetched);
      LocalCovers(c, s, s', k, p);
    }
  }

  lemma ProcessCovers(c: Config, s: State, k: nat, ok: bool)
    requires Covered(c, s) && c.mode == AfterProcess
    ensures Covered(c, Step(c, s, Process(k, ok)))
  {
    if Working(s, k) && s.consumers[k].flight.value.phase == Fetched {
      FlightDoing(s, k);
      var p := s.consumers[k].flight.value.partition;
      var s' := Attempt(s, k, ok);
      assert Doing(s', p) == Some(Done);
      AttemptCovers(c, s.parts[p], s'.parts[p]);
      LocalCovers(c, s, s', k, p);
    }
  }

  lemma StoresCovers(c: Config, s: State, k: nat)
    requires Covered(c, s) && Working(s, k) && s.consumers[k].flight.value.phase == Done
    ensures Covered(c, Advance(Commit(s, k), k))
  {
    FlightDoing(s, k);
    var p := s.consumers[k].flight.value.partition;
    var s' := Advance(Commit(s, k), k);
    assert s'.parts[p] == s.parts[p].(committed := Some(s.parts[p].position + 1), position := s.parts[p].position + 1);
    StoredCovers(c, s.parts[p], s'.parts[p]);
    assert Doing(s', p) == None;
    LocalCovers(c, s, s', k, p);
  }

  lemma SwallowsCovers(c: Config, s: State, k: nat)
    requires Covered(c, s) && Working(s, k) && s.consumers[k].flight.value.phase == Done
    ensures Covered(c, Advance(s, k))
  {
    FlightDoing(s, k);
    var p := s.consumers[k].flight.value.partition;
    var s' := Advance(s, k);
    SwallowedCovers(c, s.parts[p], s'.parts[p]);
    assert Doing(s', p) == None;
    LocalCovers(c, s, s', k, p);
  }

  lemma LoseCovers(c: Config, s: State, k: nat)
    requires Covered(c, s) && k < |s.consumers|
    ensures Covered(c, Lose(s, k))
  {
    var s' := Lose(s, k);
    LoseOwned(s, k);
    forall p | 0 <= p < |s'.parts| ensures PartCovered(c, s'.parts[p], Doing(s', p)) {
      assert PartCovered(c, s.parts[p], Doing(s, p));
      if s.parts[p].owner != Some(k) { assert Doing(s', p) == Doing(s, p); }
    }
  }

  lemma FinishCovers(c: Config, s: State, k: nat, answer: Answer)
    requires Covered(c, s) && c.mode == AfterProcess
    ensures Covered(c, Step(c, s, Finish(k, answer)))
  {
    if Working(s, k) && s.consumers[k].flight.value.phase == Done {
      if AtCrashPoint(c, s, k) || answer == Refused {
        LoseCovers(c, s, k);
      } else if answer == Stored {
        StoresCovers(c, s, k);
      } else {
        SwallowsCovers(c, s, k);
      }
    }
  }

  /** One partition got a new end or a new owner. */
  lemma OnePartCovers(c: Config, s: State, s': State, p: nat)
    requires Covered(c, s) && p < |s.parts| == |s'.parts| && s' == s.(parts := s.parts[p := s'.parts[p]])
    requires Owned(s') && PartCovered(c, s'.parts[p], Doing(s', p))
    ensures Covered(c, s')
  {
    forall r | 0 <= r < |s'.parts| ensures PartCovered(c, s'.parts[r], Doing(s', r)) {
      if r != p { assert Doing(s', r) == Doing(s, r); }
    }
  }

  lemma AppendCovers(c: Config, s: State, p: nat)
    requires Covered(c, s) && p < |s.parts|
    ensures Covered(c, Step(c, s, Append(p)))
  {
    var s' := Step(c, s, Append(p));
    GrownOwned(s, s', p);
    assert PartCovered(c, s.parts[p], Doing(s, p));
    OnePartCovers(c, s, s', p);
  }

  lemma HandOverCovers(c: Config, s: State, p: nat, q: Partition)
    requires Covered(c, s) && p < |s.parts| && Doing(s, p).None?
    requires q == s.parts[p].(owner := q.owner, position := q.position)
    requires q.owner.Some? ==> q.owner.value < |s.consumers| && s.consumers[q.owner.value].alive
                               && q.position == Committed(q) && s.parts[p].owner.None?
    ensures Covered(c, s.(parts := s.parts[p := q]))
  {
    var s' := s.(parts := s.parts[p := q]);
    HandedOwned(s, s', p);
    assert PartCovered(c, s.parts[p], Doing(s, p));
    OnePartCovers(c, s, s', p);
  }

  lemma JoinCovers(c: Config, s: State)
    requires Covered(c, s)
    ensures Covered(c, Step(c, s, Join))
  {
    var s' := Step(c, s, Join);
    JoinOwned(c, s);
    forall p | 0 <= p < |s'.parts| ensures PartCovered(c, s'.parts[p], Doing(s', p)) {
      assert Doing(s', p) == Doing(s, p);
    }
  }

  /** In after-process mode every step keeps the coverage, in order or not. */
  lemma StepCovers(c: Config, s: State, e: Event)
    requires Covered(c, s) && c.mode == AfterProcess
    ensures Covered(c, Step(c, s, e))
  {
    match e
    case Append(p) => if p < |s.parts| { AppendCovers(c, s, p); }
    case Join => JoinCovers(c, s);
    case Assign(p, k) =>
      if p < |s.parts| && s.parts[p].owner.None? && k < |s.consumers| && s.consumers[k].alive {
        assert PartCovered(c, s.parts[p], Doing(s, p));
        HandOverCovers(c, s, p, s.parts[p].(owner := Some(k), position := StartPosition(c, s.parts[p])));
      }
    case Revoke(p) =>
      if p < |s.parts| && Doing(s, p).None? { HandOverCovers(c, s, p, s.parts[p].(owner := None)); }
    case Fetch(k, p) => FetchCovers(c, s, k, p);
    case EarlyCommit(_) =>
    case CancelledCommit(_) =>
    case Process(k, ok) => ProcessCovers(c, s, k, ok);
    case Finish(k, answer) => FinishCovers(c, s, k, answer);
    case Crash(k) => if k < |s.consumers| { LoseCovers(c, s, k); }
  }

  lemma {:induction false} RunCovers(c: Config, s: State, es: seq<Event>)
    requires AtRest(c, s) && c.mode == AfterProcess
    ensures Covered(c, Run(c, s, es))
  {
    if es == [] {
      AtRestCovered(c, s);
    } else {
      RunCovers(c, s, es[..|es| - 1]);
      StepCovers(c, Run(c, s, es[..|es| - 1]), es[|es| - 1]);
    }
  }
}
