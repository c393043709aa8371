/** What the steps of a consumer leave behind: rows in the store, commits at the broker, positions and owners. */
module CommitRecords {
  import opened Tasks
  import opened CommitProtocol
  import opened CommitTheorems

  // ---------------------------------------------------------------- single steps

  /** Instance `k` is alive and handles a message in the given phase. */
  predicate Handling(s: State, k: nat, phase: Phase) {
    && k < |s.consumers| && s.consumers[k].alive
    && s.consumers[k].flight.Some? && s.consumers[k].flight.value.phase == phase
    && s.consumers[k].flight.value.partition < |s.parts|
  }

  /** Processing follows the early commit, if the mode has one, and the fetch otherwise. */
  predicate MayProcess(c: Config, s: State, k: nat) {
    if c.mode == BeforeProcess then Handling(s, k, Cleared) else Handling(s, k, Fetched)
  }

  /** A message leaves one row and counts as processed exactly if processing did not throw; it is attempted anyway. */
  lemma ProcessRecords(c: Config, s: State, k: nat, ok: bool)
    requires MayProcess(c, s, k)
    ensures
      var f := s.consumers[k].flight.value;
      var q := s.parts[f.partition];
      var s' := Step(c, s, Process(k, ok));
      && s'.rows == s.rows + (if ok then [Row(f.partition, f.offset)] else [])
      && s'.parts == s.parts[f.partition := Partition(q.low, q.high, q.committed, q.owner, q.position, q.start,
                                                      q.attempts + [f.offset])]
      && s'.consumers == s.consumers[k := Consumer(true, Some(Flight(f.partition, f.offset, Done)),
                                                   s.consumers[k].processed + if ok then 1 else 0)]
      && s'.crashes == s.crashes && s'.lost == s.lost
  {
    assert s.rows + [] == s.rows;
  }

  /** Partition `p` reads on from `at` with `committed` stored, and its instance is free for the next message. */
  ghost predicate MovedOn(s: State, s': State, k: nat, p: nat, at: nat, committed: Option<nat>)
    requires p < |s.parts| && k < |s.consumers|
  {
    var q := s.parts[p];
    && s'.parts == s.parts[p := Partition(q.low, q.high, committed, q.owner, at, q.start, q.attempts)]
    && s'.consumers == s.consumers[k := Consumer(s.consumers[k].alive, None, s.consumers[k].processed)]
    && s'.crashes == s.crashes && s'.rows == s.rows
  }

  /** Instance `k` is gone with its message; the partitions it owned are free, and no commit changes. */
  ghost predicate Gone(s: State, s': State, k: nat)
    requires k < |s.consumers|
  {
    && s'.consumers == s.consumers[k := Consumer(false, None, s.consumers[k].processed)]
    && |s'.parts| == |s.parts|
    && (forall p :: 0 <= p < |s.parts| ==>
          s'.parts[p] == s.parts[p].(owner := if s.parts[p].owner == Some(k) then None else s.parts[p].owner))
    && s'.crashes == s.crashes + 1 && s'.rows == s.rows
  }

  /**
   * The end of a message: at the crash point, or if the late commit throws, the instance is gone; otherwise it
   * moves on, in after-process mode with the next offset stored unless the commit was swallowed.
   */
  lemma FinishDoes(c: Config, s: State, k: nat, answer: Answer)
    requires Handling(s, k, Done)
    ensures
      var f := s.consumers[k].flight.value;
      var s' := Step(c, s, Finish(k, answer));
      if c.crashAfter > 0 && s.consumers[k].processed >= c.crashAfter then Gone(s, s', k)
      else if c.mode == AfterProcess && answer == Refused then Gone(s, s', k)
      else MovedOn(s, s', k, f.partition, f.offset + 1,
                   if c.mode == AfterProcess && answer == Stored then Some(f.offset + 1)
                   else s.parts[f.partition].committed)
  {
  }

  /** The early commit stores the next offset and clears the message for processing; a swallowed one only clears it. */
  lemma EarlyCommitDoes(c: Config, s: State, k: nat)
    requires c.mode == BeforeProcess && Handling(s, k, Fetched)
    ensures
      var f := s.consumers[k].flight.value;
      var cleared := s.consumers[k := Consumer(true, Some(Flight(f.partition, f.offset, Cleared)),
                                               s.consumers[k].processed)];
      && Step(c, s, CancelledCommit(k)) == s.(consumers := cleared)
      && Step(c, s, EarlyCommit(k)) ==
         s.(consumers := cleared,
            parts := s.parts[f.partition := s.parts[f.partition].(committed := Some(f.offset + 1))])
  {
  }

  /** A free partition's new owner starts at the commit; without one at the oldest or newest offset, as configured. */
  lemma AssignDoes(c: Config, s: State, p: nat, k: nat)
    requires p < |s.parts| && s.parts[p].owner.None? && k < |s.consumers| && s.consumers[k].alive
    ensures
      var q := s.parts[p];
      var at := match q.committed
                case Some(o) => o
                case None => if c.fromBeginning then q.low else q.high;
      Step(c, s, Assign(p, k)) == s.(parts := s.parts[p := q.(owner := Some(k), position := at)])
  {
  }

  /** A partition is taken from its owner only while none of its messages is being handled. */
  lemma RevokeDoes(c: Config, s: State, p: nat)
    requires p < |s.parts|
    ensures
      var o := s.parts[p].owner;
      var handled := o.Some? && o.value < |s.consumers| && s.consumers[o.value].flight.Some?
                     && s.consumers[o.value].flight.value.partition == p;
      Step(c, s, Revoke(p)) == if handled then s else s.(parts := s.parts[p := s.parts[p].(owner := None)])
  {
  }

  // ---------------------------------------------------------------- runs

  /** The successful processings of a run. */
  function Successes(c: Config, s: State, es: seq<Event>): nat {
    if es == [] then 0
    else
      var n := |es| - 1;
      Successes(c, s, es[..n]) + match es[n]
        case Process(k, ok) => if ok && MayProcess(c, Run(c, s, es[..n]), k) then 1 else 0
        case _ => 0
  }

  lemma OtherSteps(c: Config, s: State, e: Event)
    requires e.Process? ==> !MayProcess(c, s, e.k)
    ensures
      var s' := Step(c, s, e);
      && s'.rows == s.rows && |s'.parts| == |s.parts|
      && forall p :: 0 <= p < |s.parts| ==> s'.parts[p].attempts == s.parts[p].attempts
  {
  }

  /** The store holds one row per successful processing. */
  lemma {:induction false} RowsCounted(c: Config, s: State, es: seq<Event>)
    ensures |Run(c, s, es).rows| == |s.rows| + Successes(c, s, es)
  {
    if es != [] {
      var n := |es| - 1;
      var t := Run(c, s, es[..n]);
      RowsCounted(c, s, es[..n]);
      RowOrNot(c, t, es[n]);
    }
  }

  lemma RowOrNot(c: Config, s: State, e: Event)
    ensures |Step(c, s, e).rows| == |s.rows| + if e.Process? && e.ok && MayProcess(c, s, e.k) then 1 else 0
  {
    if e.Process? && MayProcess(c, s, e.k) {
      ProcessRecords(c, s, e.k, e.ok);
    } else {
      OtherSteps(c, s, e);
    }
  }

  /** Every attempted offset has its row. */
  ghost predicate Recorded(s: State) {
    forall p, o :: 0 <= p < |s.parts| && o in s.parts[p].attempts ==> Row(p, o) in s.rows
  }

  lemma StepRecorded(c: Config, s: State, e: Event)
    requires Recorded(s) && (e.Process? ==> e.ok)
    ensures Recorded(Step(c, s, e))
  {
    if e.Process? && MayProcess(c, s, e.k) {
      ProcessRecords(c, s, e.k, e.ok);
      var s' := Step(c, s, e);
      assert forall r :: r in s.rows ==> r in s'.rows;
      assert s'.rows[|s.rows|] == Row(s.consumers[e.k].flight.value.partition, s.consumers[e.k].flight.value.offset);
    } else {
      OtherSteps(c, s, e);
    }
  }

  /** If no processing throws, every attempted offset of every partition is in the store. */
  lemma {:induction false} AllRecorded(c: Config, s: State, es: seq<Event>)
    requires AtRest(c, s) && forall i :: 0 <= i < |es| ==> es[i].Process? ==> es[i].ok
    ensures Recorded(Run(c, s, es))
  {
    if es != [] {
      var n := |es| - 1;
      AllRecorded(c, s, es[..n]);
      StepRecorded(c, Run(c, s, es[..n]), es[n]);
    }
  }

  /** In after-process mode everything below the commit is then in the store. */
  lemma CommittedIsRecorded(c: Config, s: State, es: seq<Event>, p: nat, o: nat)
    requires c.mode == AfterProcess && AtRest(c, s) && forall i :: 0 <= i < |es| ==> es[i].Process? ==> es[i].ok
    requires p < |Run(c, s, es).parts| && Run(c, s, es).parts[p].start <= o < Committed(Run(c, s, es).parts[p])
    ensures Row(p, o) in Run(c, s, es).rows
  {
    AtLeastOnce(c, s, es, p);
    AllRecorded(c, s, es);
  }
}
