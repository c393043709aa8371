/** What the two commit modes promise over whole runs. */
module CommitTheorems {
  import opened Tasks
  import opened CommitProtocol
  import opened CommitCoverage
  import opened OrderStats

  /**
   * after-process: on every run nothing below the commit was passed over and no attempt skips ahead;
   * unless a commit was swallowed, each attempt repeats the previous offset or moves on by one.
   */
  lemma AtLeastOnce(c: Config, s: State, es: seq<Event>, p: nat)
    requires c.mode == AfterProcess && AtRest(c, s)
    requires p < |Run(c, s, es).parts|
    ensures
      var q := Run(c, s, es).parts[p];
      && (forall o :: q.start <= o < Committed(q) ==> o in q.attempts)
      && (q.attempts != [] ==> q.attempts[0] == q.start)
      && NoSkip(q.attempts)
      && (OrderlyRun(c, s, es) ==> Stepwise(q.attempts))
  {
    var s' := Run(c, s, es);
    RunCovers(c, s, es);
    assert PartCovered(c, s'.parts[p], Doing(s', p));
    if OrderlyRun(c, s, es) {
      RunKeeps(c, s, es);
      assert PartOk(c, p, s'.parts[p], Doing(s', p), p in s'.owed, s'.lost);
    }
  }

  /**
   * before-process: attempted offsets strictly increase, and a committed offset that is neither attempted
   * nor being handled is one of the losses, of which there is at most one per crash.
   */
  lemma AtMostOnce(c: Config, s: State, es: seq<Event>, p: nat)
    requires c.mode == BeforeProcess && AtRest(c, s) && OrderlyRun(c, s, es)
    requires p < |Run(c, s, es).parts|
    ensures
      var s' := Run(c, s, es);
      var q := s'.parts[p];
      && Climbing(q.attempts)
      && |s'.lost| <= s'.crashes
      && forall o :: q.start <= o < Committed(q) ==>
           o in q.attempts || Row(p, o) in s'.lost || (Doing(s', p) == Some(Cleared) && o == q.position)
  {
    RunKeeps(c, s, es);
    var s' := Run(c, s, es);
    assert PartOk(c, p, s'.parts[p], Doing(s', p), p in s'.owed, s'.lost);
  }

  // ---------------------------------------------------------------- duplicates in the store

  /** The event table a run leaves behind, given which event each message carries. */
  function Table(rows: seq<Row>, event: Row -> Pair): seq<Pair> {
    seq(|rows|, i requires 0 <= i < |rows| => event(rows[i]))
  }

  /** No two of these messages carry the same event. */
  ghost predicate EachOnce(rows: seq<Row>, event: Row -> Pair) {
    forall i, j :: 0 <= i < |rows| && 0 <= j < |rows| && event(rows[i]) == event(rows[j]) ==> rows[i] == rows[j]
  }

  lemma {:induction false} DistinctImage(rows: seq<Row>, event: Row -> Pair)
    requires EachOnce(rows, event)
    ensures NumDistinct(Table(rows, event)) == NumDistinct(rows)
  {
    if rows != [] {
      var init, x := rows[..|rows| - 1], rows[|rows| - 1];
      DistinctImage(init, event);
      var t := Table(init, event);
      assert Table(rows, event)[..|rows| - 1] == t;
      assert x in init ==> event(x) in t by {
        if x in init {
          var i :| 0 <= i < |init| && init[i] == x;
          assert t[i] == event(x);
        }
      }
      assert event(x) in t ==> x in init by {
        if event(x) in t {
          var i :| 0 <= i < |t| && t[i] == event(x);
          assert rows[i] == rows[|rows| - 1] && init[i] == x;
        }
      }
    }
  }

  /**
   * A log that holds each event once, read by one after-process group: whatever the query returns,
   * duplicateExtra is at most the number of crashed instances; in before-process mode it is zero.
   */
  lemma DuplicatesBounded(c: Config, s: State, es: seq<Event>, event: Row -> Pair, report: seq<Duplicate>)
    requires AtRest(c, s) && OrderlyRun(c, s, es)
    requires EachOnce(Run(c, s, es).rows, event)
    requires IsDuplicateReport(Table(Run(c, s, es).rows, event), report)
    ensures c.mode == AfterProcess ==> DuplicateExtra(report) <= Run(c, s, es).crashes
    ensures c.mode == BeforeProcess ==> DuplicateExtra(report) == 0
  {
    var s' := Run(c, s, es);
    RunKeeps(c, s, es);
    EventBalance(Table(s'.rows, event), report);
    DistinctImage(s'.rows, event);
  }
}
