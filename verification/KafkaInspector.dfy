/** Lag, message counts and offset reset (kafka-inspector.ts). */
module KafkaInspector {
  import opened Tasks
  import opened CommitProtocol
  import opened CommitCoverage
  import opened Insertion

  /** One entry of fetchTopicOffsets. */
  datatype Offsets = Offsets(partition: nat, low: int, high: int)

  /** One entry of fetchOffsets; the broker answers -1 for a partition without a commit. */
  datatype CommittedAt = CommittedAt(partition: nat, offset: int)

  datatype PartitionLag = PartitionLag(partition: nat, latest: int, committed: Option<int>, lag: int)

  datatype Target = Earliest | Latest

  function Sum(xs: seq<int>): int {
    if xs == [] then 0 else Sum(xs[..|xs| - 1]) + xs[|xs| - 1]
  }

  /** describeTopics: messages per partition. */
  function Retained(e: Offsets): int { Max(e.high - e.low, 0) }

  function MessageCounts(latest: seq<Offsets>): seq<int> {
    seq(|latest|, i requires 0 <= i < |latest| => Retained(latest[i]))
  }

  /** The last entry for a partition wins, as in a Map filled in order. */
  function Lookup(committed: seq<CommittedAt>, p: nat): Option<int> {
    if committed == [] then None
    else
      var e := committed[|committed| - 1];
      if e.partition == p then Some(e.offset) else Lookup(committed[..|committed| - 1], p)
  }

  function LagOf(e: Offsets, raw: Option<int>): PartitionLag {
    if raw.Some? && raw.value >= 0
    then PartitionLag(e.partition, e.high, raw, Max(e.high - raw.value, 0))
    else PartitionLag(e.partition, e.high, None, Max(e.high - e.low, 0))
  }

  /** A line names the end of the log and the stored commit, if there is one, and counts what lies between. */
  lemma LagLine(e: Offsets, raw: Option<int>)
    ensures
      var l := LagOf(e, raw);
      && l.partition == e.partition && l.latest == e.high && l.lag >= 0
      && (l.committed.Some? <==> raw.Some? && raw.value >= 0)
      && (l.committed.Some? ==> l.committed == raw && (raw.value <= e.high ==> raw.value + l.lag == e.high)
                                && (raw.value > e.high ==> l.lag == 0))
      && (l.committed.None? ==> (e.low <= e.high ==> e.low + l.lag == e.high) && (e.low > e.high ==> l.lag == 0))
  {
  }

  ghost predicate LastFor(committed: seq<CommittedAt>, p: nat, i: nat) {
    i < |committed| && committed[i].partition == p && forall j :: i < j < |committed| ==> committed[j].partition != p
  }

  /** The last entry for a partition counts. */
  lemma {:induction false} LookupIsLast(committed: seq<CommittedAt>, p: nat, i: nat)
    requires LastFor(committed, p, i)
    ensures Lookup(committed, p) == Some(committed[i].offset)
  {
    var n := |committed| - 1;
    if i < n {
      assert committed[n].partition != p;
      var init := committed[..n];
      assert LastFor(init, p, i);
      LookupIsLast(init, p, i);
    }
  }

  /** Without an entry there is no commit. */
  lemma {:induction false} LookupIsNone(committed: seq<CommittedAt>, p: nat)
    requires forall i :: 0 <= i < |committed| ==> committed[i].partition != p
    ensures Lookup(committed, p) == None
  {
    if committed != [] { LookupIsNone(committed[..|committed| - 1], p); }
  }

  function Lags(latest: seq<Offsets>, committed: seq<CommittedAt>): seq<PartitionLag> {
    seq(|latest|, i requires 0 <= i < |latest| => LagOf(latest[i], Lookup(committed, latest[i].partition)))
  }

  function LagNumbers(ls: seq<PartitionLag>): seq<int> {
    seq(|ls|, i requires 0 <= i < |ls| => ls[i].lag)
  }

  // ---------------------------------------------------------------- topicLag

  function Get(m: map<nat, int>, p: nat): Option<int> { if p in m then Some(m[p]) else None }

  lemma LookupNext(committed: seq<CommittedAt>, n: nat, m: map<nat, int>, p: nat)
    requires n < |committed| && Lookup(committed[..n], p) == Get(m, p)
    ensures Lookup(committed[..n + 1], p) == Get(m[committed[n].partition := committed[n].offset], p)
  {
    assert committed[..n + 1][..n] == committed[..n];
  }

  /** The map of committed offsets; a later entry for the same partition wins. */
  method FillCommitted(committed: seq<CommittedAt>) returns (m: map<nat, int>)
    ensures forall p :: Lookup(committed, p) == Get(m, p)
  {
    m := map[];
    var n := 0;
    while n < |committed|
      invariant 0 <= n <= |committed|
      invariant forall p :: Lookup(committed[..n], p) == Get(m, p)
    {
      var m' := m[committed[n].partition := committed[n].offset];
      forall p ensures Lookup(committed[..n + 1], p) == Get(m', p) { LookupNext(committed, n, m, p); }
      m := m';
      n := n + 1;
    }
    assert committed[..n] == committed;
  }

  ghost predicate ByPartition(ls: seq<PartitionLag>) {
    forall i, j :: 0 <= i < j < |ls| ==> ls[i].partition <= ls[j].partition
  }

  function PartitionOf(l: PartitionLag): int { l.partition }

  /** The sort by partition, as insertions from the left. */
  function SortLags(ls: seq<PartitionLag>): seq<PartitionLag> {
    if ls == [] then []
    else
      var l, done := ls[|ls| - 1], SortLags(ls[..|ls| - 1]);
      Inserted(done, PlaceFor(done, PartitionOf, l.partition), l)
  }

  lemma {:induction false} SumAppend(a: seq<int>, b: seq<int>)
    ensures Sum(a + b) == Sum(a) + Sum(b)
  {
    if b == [] {
      assert a + b == a;
    } else {
      assert (a + b)[..|a + b| - 1] == a + b[..|b| - 1];
      SumAppend(a, b[..|b| - 1]);
    }
  }

  lemma LagSumAppend(a: seq<PartitionLag>, b: seq<PartitionLag>)
    ensures Sum(LagNumbers(a + b)) == Sum(LagNumbers(a)) + Sum(LagNumbers(b))
  {
    assert LagNumbers(a + b) == LagNumbers(a) + LagNumbers(b);
    SumAppend(LagNumbers(a), LagNumbers(b));
  }

  lemma LagSumOne(l: PartitionLag)
    ensures Sum(LagNumbers([l])) == l.lag
  {
    assert LagNumbers([l]) == [] + [l.lag];
    assert ([] + [l.lag])[..0] == [];
  }

  lemma InsertSums(done: seq<PartitionLag>, j: nat, l: PartitionLag)
    requires j <= |done|
    ensures Sum(LagNumbers(Inserted(done, j, l))) == Sum(LagNumbers(done)) + l.lag
  {
    var a, b := done[..j], done[j..];
    assert done == a + b;
    LagSumAppend(a + [l], b);
    LagSumAppend(a, [l]);
    LagSumAppend(a, b);
    LagSumOne(l);
  }

  lemma {:induction false} SortLagsOrders(ls: seq<PartitionLag>)
    ensures SortedBy(SortLags(ls), PartitionOf)
  {
    if ls != [] {
      var done, l := SortLags(ls[..|ls| - 1]), ls[|ls| - 1];
      SortLagsOrders(ls[..|ls| - 1]);
      InsertedSorted(done, PartitionOf, PlaceFor(done, PartitionOf, l.partition), l);
    }
  }

  lemma SplitLast(ls: seq<PartitionLag>)
    requires ls != []
    ensures multiset(ls) == multiset(ls[..|ls| - 1]) + multiset{ls[|ls| - 1]}
  {
    assert ls == ls[..|ls| - 1] + [ls[|ls| - 1]];
  }

  lemma {:induction false} SortLagsPermutes(ls: seq<PartitionLag>, sorted: seq<PartitionLag>)
    requires sorted == SortLags(ls)
    ensures multiset(sorted) == multiset(ls)
  {
    if ls != [] {
      var init, l := ls[..|ls| - 1], ls[|ls| - 1];
      var done := SortLags(init);
      SortLagsPermutes(init, done);
      assert multiset(sorted) == multiset(done) + multiset{l} by {
        InsertedPermutes(done, PlaceFor(done, PartitionOf, l.partition), l);
      }
      SplitLast(ls);
    }
  }

  lemma {:induction false} SortLagsSums(ls: seq<PartitionLag>)
    ensures Sum(LagNumbers(SortLags(ls))) == Sum(LagNumbers(ls))
  {
    if ls != [] {
      var init, l := ls[..|ls| - 1], ls[|ls| - 1];
      var done := SortLags(init);
      SortLagsSums(init);
      InsertSums(done, PlaceFor(done, PartitionOf, l.partition), l);
      assert ls == init + [l];
      LagSumAppend(init, [l]);
      LagSumOne(l);
    }
  }

  /** The reduce over the lines. */
  method SumLags(ls: seq<PartitionLag>) returns (total: int)
    ensures total == Sum(LagNumbers(ls))
  {
    var ns := LagNumbers(ls);
    total := 0;
    var i := 0;
    while i < |ls|
      invariant 0 <= i <= |ls| && total == Sum(ns[..i])
    {
      assert ns[..i + 1][..i] == ns[..i];
      total := total + ls[i].lag;
      i := i + 1;
    }
    assert ns[..i] == ns;
  }

  /** The lag of every partition, ordered by partition, and their total. */
  method TopicLag(latest: seq<Offsets>, committed: seq<CommittedAt>) returns (ls: seq<PartitionLag>, total: int)
    ensures ByPartition(ls) && multiset(ls) == multiset(Lags(latest, committed))
    ensures total == Sum(LagNumbers(ls)) == Sum(LagNumbers(Lags(latest, committed)))
  {
    var m := FillCommitted(committed);
    var lines := seq(|latest|, i requires 0 <= i < |latest| => LagOf(latest[i], Get(m, latest[i].partition)));
    assert lines == Lags(latest, committed);
    SortLagsOrders(lines);
    SortLagsPermutes(lines, SortLags(lines));
    SortLagsSums(lines);
    ls := SortLags(lines);
    assert forall i, j :: 0 <= i < j < |ls| ==> PartitionOf(ls[i]) <= PartitionOf(ls[j]);
    total := SumLags(ls);
  }

  // ---------------------------------------------------------------- resetOffsets

  /** resetOffsets: the offsets it stores for the group. */
  function ResetTargets(latest: seq<Offsets>, target: Target): seq<CommittedAt> {
    seq(|latest|, i requires 0 <= i < |latest| =>
          CommittedAt(latest[i].partition, if target == Earliest then latest[i].low else latest[i].high))
  }

  ghost predicate Distinct(latest: seq<Offsets>) {
    forall i, j :: 0 <= i < j < |latest| ==> latest[i].partition != latest[j].partition
  }

  lemma {:induction false} LookupTarget(latest: seq<Offsets>, target: Target, n: nat, i: nat)
    requires Distinct(latest) && i < n <= |latest|
    ensures Lookup(ResetTargets(latest, target)[..n], latest[i].partition)
            == Some(ResetTargets(latest, target)[i].offset)
  {
    var ts := ResetTargets(latest, target);
    assert ts[..n][..n - 1] == ts[..n - 1];
    if i < n - 1 { LookupTarget(latest, target, n - 1, i); }
  }

  /** After a reset to earliest the lag is what the topic holds; after a reset to latest it is zero. */
  lemma LagAfterReset(latest: seq<Offsets>, target: Target)
    requires Distinct(latest)
    requires forall i :: 0 <= i < |latest| ==> 0 <= latest[i].low && 0 <= latest[i].high
    ensures
      var ns := LagNumbers(Lags(latest, ResetTargets(latest, target)));
      && (target == Earliest ==> ns == MessageCounts(latest))
      && (target == Latest ==> (forall i :: 0 <= i < |ns| ==> ns[i] == 0) && Sum(ns) == 0)
  {
    var ts := ResetTargets(latest, target);
    var ns := LagNumbers(Lags(latest, ts));
    assert ts[..|latest|] == ts;
    forall i | 0 <= i < |latest|
      ensures ns[i] == if target == Earliest then Retained(latest[i]) else 0
    {
      LookupTarget(latest, target, |latest|, i);
    }
    if target == Latest { SumZero(ns); }
  }

  lemma {:induction false} SumZero(ns: seq<int>)
    requires forall i :: 0 <= i < |ns| ==> ns[i] == 0
    ensures Sum(ns) == 0
  {
    if ns != [] { SumZero(ns[..|ns| - 1]); }
  }

  lemma {:induction false} SumZeroEach(ns: seq<int>, i: nat)
    requires i < |ns| && (forall j :: 0 <= j < |ns| ==> ns[j] >= 0) && Sum(ns) <= 0
    ensures ns[i] == 0
  {
    SumNonNegative(ns[..|ns| - 1]);
    if i < |ns| - 1 { SumZeroEach(ns[..|ns| - 1], i); }
  }

  lemma {:induction false} SumNonNegative(ns: seq<int>)
    requires forall j :: 0 <= j < |ns| ==> ns[j] >= 0
    ensures Sum(ns) >= 0
  {
    if ns != [] { SumNonNegative(ns[..|ns| - 1]); }
  }

  // ---------------------------------------------------------------- a group of consumers, inspected

  function OffsetsOf(s: State): seq<Offsets> {
    seq(|s.parts|, p requires 0 <= p < |s.parts| => Offsets(p, s.parts[p].low, s.parts[p].high))
  }

  function CommitsOf(s: State): seq<CommittedAt> {
    seq(|s.parts|, p requires 0 <= p < |s.parts| =>
          CommittedAt(p, if s.parts[p].committed.Some? then s.parts[p].committed.value else -1))
  }

  function TotalLag(s: State): int {
    Sum(LagNumbers(Lags(OffsetsOf(s), CommitsOf(s))))
  }

  /** setOffsets on a group without members: a new run begins at the targets. */
  function ResetGroup(s: State, target: Target): State {
    State(seq(|s.parts|, p requires 0 <= p < |s.parts| => ResetPartition(s.parts[p], target)),
          seq(|s.consumers|, k requires 0 <= k < |s.consumers| => Consumer(false, None, s.consumers[k].processed)),
          0, [], {}, [])
  }

  function ResetPartition(q: Partition, target: Target): Partition {
    var at := if target == Earliest then q.low else q.high;
    Partition(q.low, q.high, Some(at), None, at, at, [])
  }

  lemma {:induction false} LookupCommit(s: State, n: nat, p: nat)
    requires p < n <= |s.parts|
    ensures Lookup(CommitsOf(s)[..n], p) == Some(CommitsOf(s)[p].offset)
  {
    var cs := CommitsOf(s);
    assert cs[..n][..n - 1] == cs[..n - 1];
    if p < n - 1 { LookupCommit(s, n - 1, p); }
  }

  /** The inspector's lag of a partition is what lies above its commit. */
  lemma LagIsRest(s: State, p: nat)
    requires p < |s.parts| && s.parts[p].low <= s.parts[p].high && Committed(s.parts[p]) <= s.parts[p].high
    ensures LagNumbers(Lags(OffsetsOf(s), CommitsOf(s)))[p] == s.parts[p].high - Committed(s.parts[p])
  {
    LookupCommit(s, |s.parts|, p);
    assert CommitsOf(s)[..|s.parts|] == CommitsOf(s);
  }

  /** With a total lag of zero every partition is committed to its end. */
  lemma DrainedCommit(c: Config, s: State, p: nat)
    requires Covered(c, s) && TotalLag(s) == 0 && p < |s.parts|
    requires forall i :: 0 <= i < |s.parts| ==> s.parts[i].low <= s.parts[i].high
    ensures Committed(s.parts[p]) == s.parts[p].high
  {
    var ns := LagNumbers(Lags(OffsetsOf(s), CommitsOf(s)));
    forall i | 0 <= i < |ns| ensures ns[i] == s.parts[i].high - Committed(s.parts[i]) && ns[i] >= 0 {
      assert PartCovered(c, s.parts[i], Doing(s, i));
      LagIsRest(s, i);
    }
    SumZeroEach(ns, p);
  }

  /** Resetting to earliest and running until the total lag is zero has attempted every retained offset. */
  lemma DrainedMeansAttempted(c: Config, s: State, es: seq<Event>, p: nat, o: nat)
    requires c.mode == AfterProcess && p < |s.parts|
    requires forall i :: 0 <= i < |s.parts| ==> s.parts[i].low <= s.parts[i].high
    requires
      var s' := Run(c, ResetGroup(s, Earliest), es);
      && p < |s'.parts| && TotalLag(s') == 0
      && s.parts[p].low <= o < s'.parts[p].high
    ensures o in Run(c, ResetGroup(s, Earliest), es).parts[p].attempts
  {
    var s0 := ResetGroup(s, Earliest);
    var s' := Run(c, s0, es);
    assert AtRest(c, s0);
    RunCovers(c, s0, es);
    RunFrame(c, s0, es);
    DrainedCommit(c, s', p);
    assert PartCovered(c, s'.parts[p], Doing(s', p));
  }

  /** Runs neither add partitions nor move their low end or start, and never shrink a log. */
  lemma {:induction false} RunFrame(c: Config, s: State, es: seq<Event>)
    ensures
      var s' := Run(c, s, es);
      && |s'.parts| == |s.parts|
      && forall p :: 0 <= p < |s.parts| ==>
           && s'.parts[p].low == s.parts[p].low && s'.parts[p].start == s.parts[p].start
           && s'.parts[p].high >= s.parts[p].high
  {
    if es != [] {
      RunFrame(c, s, es[..|es| - 1]);
      StepFrame(c, Run(c, s, es[..|es| - 1]), es[|es| - 1]);
    }
  }

  lemma StepFrame(c: Config, s: State, e: Event)
    ensures
      var s' := Step(c, s, e);
      && |s'.parts| == |s.parts|
      && forall p :: 0 <= p < |s.parts| ==>
           && s'.parts[p].low == s.parts[p].low && s'.parts[p].start == s.parts[p].start
           && s'.parts[p].high >= s.parts[p].high
  {
  }
}
