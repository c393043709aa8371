/** What a swallowed commit leads to: from wherever it happens, some continuation breaks the promise of its mode. */
module CommitFailures {
  import opened Tasks
  import opened CommitProtocol

  // ---------------------------------------------------------------- following one partition

  /** Instance `k` handles offset `o` of partition `p`, whose attempts so far are `a`. */
  ghost predicate Handles(s: State, p: nat, k: nat, o: nat, phase: Phase, a: seq<nat>) {
    && p < |s.parts| && k < |s.consumers|
    && s.consumers[k].alive && s.consumers[k].flight == Some(Flight(p, o, phase))
    && s.parts[p].owner == Some(k) && s.parts[p].position == o && s.parts[p].attempts == a
  }

  /** Instance `k` owns partition `p` and is about to fetch offset `o`. */
  ghost predicate Owns(s: State, p: nat, k: nat, o: nat, a: seq<nat>) {
    && p < |s.parts| && k < |s.consumers|
    && s.consumers[k].alive && s.consumers[k].flight.None?
    && s.parts[p].owner == Some(k) && s.parts[p].position == o && s.parts[p].attempts == a
  }

  ghost predicate Free(s: State, p: nat, a: seq<nat>) {
    p < |s.parts| && s.parts[p].owner.None? && s.parts[p].attempts == a
  }

  /** A new owner of partition `p` would start at `o`, and the log goes beyond it. */
  ghost predicate RestartsAt(c: Config, s: State, p: nat, o: nat) {
    && p < |s.parts|
    && (s.parts[p].committed.Some? || c.fromBeginning)
    && Committed(s.parts[p]) == o < s.parts[p].high
  }

  lemma Fetches(c: Config, s: State, p: nat, k: nat, o: nat, a: seq<nat>, b: nat)
    requires Owns(s, p, k, o, a) && o < s.parts[p].high && RestartsAt(c, s, p, b)
    ensures
      var s' := Step(c, s, Fetch(k, p));
      Handles(s', p, k, o, Fetched, a) && RestartsAt(c, s', p, b)
  {
  }

  lemma Processes(c: Config, s: State, p: nat, k: nat, o: nat, a: seq<nat>, b: nat)
    requires Handles(s, p, k, o, if c.mode == BeforeProcess then Cleared else Fetched, a) && RestartsAt(c, s, p, b)
    ensures
      var s' := Step(c, s, Process(k, true));
      && Handles(s', p, k, o, Done, a + [o]) && RestartsAt(c, s', p, b)
      && s'.consumers[k].processed == s.consumers[k].processed + 1
  {
  }

  lemma Dies(c: Config, s: State, p: nat, k: nat, o: nat, phase: Phase, a: seq<nat>, b: nat)
    requires Handles(s, p, k, o, phase, a) && RestartsAt(c, s, p, b)
    ensures
      var s' := Step(c, s, Crash(k));
      Free(s', p, a) && RestartsAt(c, s', p, b)
  {
  }

  lemma Grows(c: Config, s: State, p: nat, k: nat, o: nat, a: seq<nat>, b: nat)
    requires Owns(s, p, k, o, a) && RestartsAt(c, s, p, b)
    ensures
      var s' := Step(c, s, Append(p));
      Owns(s', p, k, o, a) && RestartsAt(c, s', p, b) && s'.parts[p].high == s.parts[p].high + 1
  {
  }

  lemma MovesOn(c: Config, s: State, p: nat, k: nat, o: nat, a: seq<nat>, b: nat)
    requires Handles(s, p, k, o, Done, a) && RestartsAt(c, s, p, b)
    requires c.mode == AfterProcess && !AtCrashPoint(c, s, k)
    ensures
      var s' := Step(c, s, Finish(k, Swallowed));
      Owns(s', p, k, o + 1, a) && RestartsAt(c, s', p, b) && s'.parts[p].high == s.parts[p].high
  {
  }

  lemma Skips(c: Config, s: State, p: nat, k: nat, o: nat, a: seq<nat>, b: nat)
    requires Handles(s, p, k, o, Fetched, a) && RestartsAt(c, s, p, b) && c.mode == BeforeProcess
    ensures
      var s' := Step(c, s, CancelledCommit(k));
      Handles(s', p, k, o, Cleared, a) && RestartsAt(c, s', p, b)
  {
  }

  lemma Joins(c: Config, s: State, p: nat, a: seq<nat>, b: nat)
    requires Free(s, p, a) && RestartsAt(c, s, p, b)
    ensures
      var s' := Step(c, s, Join);
      && Free(s', p, a) && RestartsAt(c, s', p, b)
      && |s'.consumers| == |s.consumers| + 1 && s'.consumers[|s.consumers|] == Consumer(true, None, 0)
  {
  }

  lemma Takes(c: Config, s: State, p: nat, a: seq<nat>, b: nat, k: nat)
    requires Free(s, p, a) && RestartsAt(c, s, p, b) && k < |s.consumers| && s.consumers[k] == Consumer(true, None, 0)
    ensures
      var s' := Step(c, s, Assign(p, k));
      Owns(s', p, k, b, a) && RestartsAt(c, s', p, b) && s'.consumers[k].processed == 0
  {
  }

  // ---------------------------------------------------------------- reachable states

  ghost predicate Reaches(c: Config, s: State, t: State) { exists es :: Run(c, s, es) == t }

  lemma ReachesSelf(c: Config, s: State)
    ensures Reaches(c, s, s)
  {
    assert Run(c, s, []) == s;
  }

  lemma ReachesMore(c: Config, s: State, t: State, e: Event)
    requires Reaches(c, s, t)
    ensures Reaches(c, s, Step(c, t, e))
  {
    var es :| Run(c, s, es) == t;
    RunOneMore(c, s, es, e);
  }

  /** Some run from `s` gives partition `p` exactly the attempts `a`. */
  ghost predicate CanAttempt(c: Config, s: State, p: nat, a: seq<nat>) {
    exists t :: Reaches(c, s, t) && p < |t.parts| && t.parts[p].attempts == a
  }

  /** A free partition is taken over and its restart offset fetched. */
  lemma TakenUp(c: Config, s: State, t: State, p: nat, a: seq<nat>, b: nat) returns (u: State, k: nat)
    requires Reaches(c, s, t) && Free(t, p, a) && RestartsAt(c, t, p, b)
    ensures Reaches(c, s, u) && Handles(u, p, k, b, Fetched, a) && RestartsAt(c, u, p, b)
    ensures u.consumers[k].processed == 0
  {
    k := |t.consumers|;
    Joins(c, t, p, a, b);
    var t1 := Step(c, t, Join);
    ReachesMore(c, s, t, Join);
    Takes(c, t1, p, a, b, k);
    var t2 := Step(c, t1, Assign(p, k));
    ReachesMore(c, s, t1, Assign(p, k));
    Fetches(c, t2, p, k, b, a, b);
    u := Step(c, t2, Fetch(k, p));
    ReachesMore(c, s, t2, Fetch(k, p));
  }

  /** A message is processed and its instance lost before anything is stored. */
  lemma ProcessedThenLost(c: Config, s: State, t: State, p: nat, k: nat, o: nat, a: seq<nat>, b: nat) returns (u: State)
    requires Reaches(c, s, t) && RestartsAt(c, t, p, b)
    requires Handles(t, p, k, o, if c.mode == BeforeProcess then Cleared else Fetched, a)
    ensures Reaches(c, s, u) && Free(u, p, a + [o]) && RestartsAt(c, u, p, b)
  {
    Processes(c, t, p, k, o, a, b);
    var t1 := Step(c, t, Process(k, true));
    ReachesMore(c, s, t, Process(k, true));
    Dies(c, t1, p, k, o, Done, a + [o], b);
    u := Step(c, t1, Crash(k));
    ReachesMore(c, s, t1, Crash(k));
  }

  // ---------------------------------------------------------------- before-process: the same message twice

  /** An early commit, stored, and then the attempt. */
  lemma CommitsAndProcesses(c: Config, s: State, t: State, p: nat, k: nat, o: nat, a: seq<nat>)
    requires Reaches(c, s, t) && Handles(t, p, k, o, Fetched, a) && c.mode == BeforeProcess
    ensures CanAttempt(c, s, p, a + [o])
  {
    var t1 := Step(c, t, EarlyCommit(k));
    ReachesMore(c, s, t, EarlyCommit(k));
    assert Handles(t1, p, k, o, Cleared, a);
    ReachesMore(c, s, t1, Process(k, true));
    assert Step(c, t1, Process(k, true)).parts[p].attempts == a + [o];
  }

  lemma CancelledThenTwice(c: Config, s: State, t: State, p: nat, k: nat, o: nat, a: seq<nat>)
    requires c.mode == BeforeProcess && Reaches(c, s, t) && Handles(t, p, k, o, Cleared, a) && RestartsAt(c, t, p, o)
    ensures CanAttempt(c, s, p, a + [o] + [o])
  {
    var t1 := ProcessedThenLost(c, s, t, p, k, o, a, o);
    var t2, k2 := TakenUp(c, s, t1, p, a + [o], o);
    CommitsAndProcesses(c, s, t2, p, k2, o, a + [o]);
  }

  /** Wherever an early commit is swallowed, some continuation attempts that message twice. */
  lemma CancelledCommitRepeats(c: Config, s: State, k: nat)
    requires Inv(c, s) && SwallowsCommit(c, s, CancelledCommit(k))
    ensures
      var f := s.consumers[k].flight.value;
      var a := s.parts[f.partition].attempts;
      && CanAttempt(c, Step(c, s, CancelledCommit(k)), f.partition, a + [f.offset] + [f.offset])
      && !Climbing(a + [f.offset] + [f.offset])
  {
    var f := s.consumers[k].flight.value;
    var p, o, a := f.partition, f.offset, s.parts[f.partition].attempts;
    FlightFacts(c, s, k);
    Skips(c, s, p, k, o, a, o);
    var t := Step(c, s, CancelledCommit(k));
    ReachesSelf(c, t);
    CancelledThenTwice(c, t, t, p, k, o, a);
    var twice := a + [o] + [o];
    assert twice[|a|] == twice[|a| + 1];
  }

  /** A group at rest with a message to read can reach such a commit, and with it the attempts o, o. */
  lemma RestRepeats(c: Config, s: State, p: nat, o: nat)
    requires c.mode == BeforeProcess && AtRest(c, s) && RestartsAt(c, s, p, o)
    ensures CanAttempt(c, s, p, [o, o])
  {
    ReachesSelf(c, s);
    var t, k := TakenUp(c, s, s, p, [], o);
    Skips(c, t, p, k, o, [], o);
    ReachesMore(c, s, t, CancelledCommit(k));
    CancelledThenTwice(c, s, Step(c, t, CancelledCommit(k)), p, k, o, []);
    assert [] + [o] + [o] == [o, o];
  }

  // ---------------------------------------------------------------- after-process: falling back

  /** After moving on without a stored commit: the next message is attempted, then the old one again. */
  lemma MovedOnThenBack(c: Config, s: State, t: State, p: nat, k: nat, o: nat, a: seq<nat>)
    requires c.mode == AfterProcess && Reaches(c, s, t) && Owns(t, p, k, o + 1, a) && RestartsAt(c, t, p, o)
    ensures CanAttempt(c, s, p, a + [o + 1] + [o])
  {
    Grows(c, t, p, k, o + 1, a, o);
    var t1 := Step(c, t, Append(p));
    ReachesMore(c, s, t, Append(p));
    Fetches(c, t1, p, k, o + 1, a, o);
    var t2 := Step(c, t1, Fetch(k, p));
    ReachesMore(c, s, t1, Fetch(k, p));
    var t3 := ProcessedThenLost(c, s, t2, p, k, o + 1, a, o);
    var t4, k2 := TakenUp(c, s, t3, p, a + [o + 1], o);
    Processes(c, t4, p, k2, o, a + [o + 1], o);
    ReachesMore(c, s, t4, Process(k2, true));
  }

  lemma LateFacts(c: Config, s: State, k: nat)
    requires Inv(c, s) && SwallowsCommit(c, s, Finish(k, Swallowed))
    ensures
      var f := s.consumers[k].flight.value;
      && f.partition < |s.parts|
      && var a := s.parts[f.partition].attempts;
         && Handles(s, f.partition, k, f.offset, Done, a) && RestartsAt(c, s, f.partition, f.offset)
         && a != [] && a[|a| - 1] == f.offset
  {
    FlightFacts(c, s, k);
  }

  /** Wherever a commit after processing is swallowed, some continuation with one crash makes the attempts fall back. */
  lemma SwallowedCommitFallsBack(c: Config, s: State, k: nat)
    requires Inv(c, s) && SwallowsCommit(c, s, Finish(k, Swallowed))
    ensures
      var f := s.consumers[k].flight.value;
      var a := s.parts[f.partition].attempts;
      && CanAttempt(c, Step(c, s, Finish(k, Swallowed)), f.partition, a + [f.offset + 1] + [f.offset])
      && a != [] && a[|a| - 1] == f.offset
      && !Stepwise(a + [f.offset + 1] + [f.offset])
  {
    var f := s.consumers[k].flight.value;
    var p, o, a := f.partition, f.offset, s.parts[f.partition].attempts;
    LateFacts(c, s, k);
    MovesOn(c, s, p, k, o, a, o);
    var t := Step(c, s, Finish(k, Swallowed));
    ReachesSelf(c, t);
    MovedOnThenBack(c, t, t, p, k, o, a);
    NotStepwise(a, o);
  }

  lemma NotStepwise(a: seq<nat>, o: nat)
    ensures !Stepwise(a + [o + 1] + [o])
  {
    var b, i := a + [o + 1] + [o], |a|;
    assert b[i] == o + 1 && b[i + 1] == o;
  }

  /** A group at rest with a message to read, no crash point set, can reach such a commit: attempts o, o + 1, o. */
  lemma RestFallsBack(c: Config, s: State, p: nat, o: nat)
    requires c.mode == AfterProcess && c.crashAfter == 0 && AtRest(c, s) && RestartsAt(c, s, p, o)
    ensures CanAttempt(c, s, p, [o, o + 1, o])
  {
    ReachesSelf(c, s);
    var t, k := TakenUp(c, s, s, p, [], o);
    Processes(c, t, p, k, o, [], o);
    var t1 := Step(c, t, Process(k, true));
    ReachesMore(c, s, t, Process(k, true));
    assert [] + [o] == [o];
    MovesOn(c, t1, p, k, o, [o], o);
    ReachesMore(c, s, t1, Finish(k, Swallowed));
    MovedOnThenBack(c, s, Step(c, t1, Finish(k, Swallowed)), p, k, o, [o]);
    assert [o] + [o + 1] + [o] == [o, o + 1, o];
  }
}
