/** The event table and its duplicate counts (sqlite-order.store.ts, order.service.ts). */
module OrderStats {
  import opened CommitProtocol
  import opened Insertion

  /** The columns findDuplicates groups by. */
  datatype Pair = Pair(orderId: string, eventType: string)

  datatype Duplicate = Duplicate(pair: Pair, count: nat)

  /** COUNT(*) of one group. */
  function Count(table: seq<Pair>, x: Pair): nat {
    if table == [] then 0
    else Count(table[..|table| - 1], x) + if table[|table| - 1] == x then 1 else 0
  }

  /** GROUP BY order_id, event_type HAVING COUNT(*) > 1, in any order. */
  ghost predicate IsDuplicateReport(table: seq<Pair>, report: seq<Duplicate>) {
    && (forall i :: 0 <= i < |report| ==> report[i].count == Count(table, report[i].pair) > 1)
    && (forall i, j :: 0 <= i < j < |report| ==> report[i].pair != report[j].pair)
    && (forall x :: Count(table, x) > 1 ==> Listed(report, x))
  }

  ghost predicate Listed(report: seq<Duplicate>, x: Pair) {
    exists i :: 0 <= i < |report| && report[i].pair == x
  }

  /** The reduce in getStats. */
  function DuplicateExtra(report: seq<Duplicate>): int {
    if report == [] then 0 else DuplicateExtra(report[..|report| - 1]) + (report[|report| - 1].count - 1)
  }

  lemma {:induction false} ExtraAppend(a: seq<Duplicate>, b: seq<Duplicate>)
    ensures DuplicateExtra(a + b) == DuplicateExtra(a) + DuplicateExtra(b)
  {
    if b == [] {
      assert a + b == a;
    } else {
      assert (a + b)[..|a + b| - 1] == a + b[..|b| - 1];
      ExtraAppend(a, b[..|b| - 1]);
    }
  }

  lemma ExtraOne(d: Duplicate)
    ensures DuplicateExtra([d]) == d.count - 1
  {
    assert [d][..0] == [];
  }

  lemma ExtraSplit(report: seq<Duplicate>, j: nat, rest: seq<Duplicate>)
    requires j < |report| && rest == report[..j] + report[j + 1..]
    ensures DuplicateExtra(report) == DuplicateExtra(rest) + report[j].count - 1
  {
    var a, b := report[..j], report[j + 1..];
    assert report == a + ([report[j]] + b);
    ExtraAppend(a, [report[j]] + b);
    ExtraAppend([report[j]], b);
    ExtraOne(report[j]);
    ExtraAppend(a, b);
  }

  lemma {:induction false} CountIn(table: seq<Pair>, x: Pair)
    ensures Count(table, x) > 0 <==> x in table
  {
    if table != [] {
      var init := table[..|table| - 1];
      CountIn(init, x);
      assert table == init + [table[|table| - 1]];
    }
  }

  /** COUNT(*) is how often the event occurs. */
  lemma {:induction false} CountIsOccurrences(table: seq<Pair>, x: Pair)
    ensures Count(table, x) == multiset(table)[x]
  {
    if table != [] {
      var n := |table| - 1;
      CountIsOccurrences(table[..n], x);
      assert table == table[..n] + [table[n]];
    }
  }

  /** Dropping the table's last row `x` changes the report in `x`'s entry only. */
  ghost function Shrunk(report: seq<Duplicate>, j: nat): seq<Duplicate>
    requires j < |report| && report[j].count > 1
  {
    if report[j].count == 2 then report[..j] + report[j + 1..]
    else report[j := Duplicate(report[j].pair, report[j].count - 1)]
  }

  lemma ShrunkExtra(report: seq<Duplicate>, j: nat)
    requires j < |report| && report[j].count > 1
    ensures DuplicateExtra(report) == DuplicateExtra(Shrunk(report, j)) + 1
  {
    var rest := report[..j] + report[j + 1..];
    ExtraSplit(report, j, rest);
    if report[j].count > 2 {
      var r := Shrunk(report, j);
      assert rest == r[..j] + r[j + 1..];
      ExtraSplit(r, j, rest);
    }
  }

  lemma CountSame(table: seq<Pair>, x: Pair)
    requires table != [] && x != table[|table| - 1]
    ensures Count(table[..|table| - 1], x) == Count(table, x)
  {
  }

  lemma ShrunkListed(report: seq<Duplicate>, j: nat, x: Pair)
    requires j < |report| && report[j].count > 1 && Listed(report, x)
    requires x != report[j].pair || report[j].count > 2
    ensures Listed(Shrunk(report, j), x)
  {
    var i :| 0 <= i < |report| && report[i].pair == x;
    var r := Shrunk(report, j);
    if report[j].count == 2 {
      assert if i < j then r[i].pair == x else r[i - 1].pair == x;
    } else {
      assert r[i].pair == x;
    }
  }

  lemma ShrunkCounts(table: seq<Pair>, report: seq<Duplicate>, j: nat, i: nat, d: Duplicate)
    requires table != [] && IsDuplicateReport(table, report) && j < |report| && report[j].pair == table[|table| - 1]
    requires i < |Shrunk(report, j)| && d == Shrunk(report, j)[i]
    ensures d.count == Count(table[..|table| - 1], d.pair) > 1
  {
    if report[j].count == 2 || i != j {
      var h := ShrunkFrom(report, j, i, d);
      OtherCount(table, report, j, h);
    } else {
      LastCount(table, report[j]);
    }
  }

  lemma ShrunkFrom(report: seq<Duplicate>, j: nat, i: nat, d: Duplicate) returns (h: nat)
    requires j < |report| && report[j].count > 1 && i < |Shrunk(report, j)| && d == Shrunk(report, j)[i]
    requires report[j].count == 2 || i != j
    ensures h < |report| && h != j && d == report[h]
  {
    h := if report[j].count == 2 && i >= j then i + 1 else i;
  }

  lemma OtherCount(table: seq<Pair>, report: seq<Duplicate>, j: nat, h: nat)
    requires table != [] && IsDuplicateReport(table, report) && j < |report| && report[j].pair == table[|table| - 1]
    requires h < |report| && h != j
    ensures report[h].count == Count(table[..|table| - 1], report[h].pair) > 1
  {
    assert report[h].pair != report[j].pair;
    CountSame(table, report[h].pair);
  }

  lemma LastCount(table: seq<Pair>, d: Duplicate)
    requires table != [] && d == Duplicate(table[|table| - 1], Count(table, table[|table| - 1]))
    ensures d.count - 1 == Count(table[..|table| - 1], d.pair)
  {
  }

  lemma ShrunkDistinct(report: seq<Duplicate>, j: nat)
    requires j < |report| && report[j].count > 1
    requires forall h, i :: 0 <= h < i < |report| ==> report[h].pair != report[i].pair
    ensures forall h, i :: 0 <= h < i < |Shrunk(report, j)| ==> Shrunk(report, j)[h].pair != Shrunk(report, j)[i].pair
  {
  }

  lemma ShrunkReport(table: seq<Pair>, report: seq<Duplicate>, j: nat)
    requires table != [] && IsDuplicateReport(table, report) && j < |report| && report[j].pair == table[|table| - 1]
    ensures IsDuplicateReport(table[..|table| - 1], Shrunk(report, j))
  {
    var init, x := table[..|table| - 1], table[|table| - 1];
    var r := Shrunk(report, j);
    forall i | 0 <= i < |r| ensures r[i].count == Count(init, r[i].pair) > 1 {
      ShrunkCounts(table, report, j, i, r[i]);
    }
    ShrunkDistinct(report, j);
    forall y | Count(init, y) > 1 ensures Listed(r, y) {
      if y != x { CountSame(table, y); }
      assert Listed(report, y);
      ShrunkListed(report, j, y);
    }
  }

  lemma SameReport(table: seq<Pair>, report: seq<Duplicate>)
    requires table != [] && IsDuplicateReport(table, report) && Count(table, table[|table| - 1]) <= 1
    ensures IsDuplicateReport(table[..|table| - 1], report)
  {
    var init := table[..|table| - 1];
    forall i | 0 <= i < |report| ensures report[i].count == Count(init, report[i].pair) > 1 {
      CountSame(table, report[i].pair);
    }
  }

  /** eventCount is the number of different events plus duplicateExtra, for every result of the query. */
  lemma {:induction false} EventBalance(table: seq<Pair>, report: seq<Duplicate>)
    requires IsDuplicateReport(table, report)
    ensures |table| == NumDistinct(table) + DuplicateExtra(report)
  {
    if table == [] {
      assert |report| > 0 ==> Count(table, report[0].pair) == 0;
    } else {
      var init, x := table[..|table| - 1], table[|table| - 1];
      CountIn(init, x);
      if Count(table, x) <= 1 {
        SameReport(table, report);
        EventBalance(init, report);
      } else {
        assert Listed(report, x);
        var j :| 0 <= j < |report| && report[j].pair == x;
        ShrunkReport(table, report, j);
        ShrunkExtra(report, j);
        EventBalance(init, Shrunk(report, j));
      }
    }
  }

  // ---------------------------------------------------------------- the query

  ghost predicate Descending(report: seq<Duplicate>) {
    forall i, j :: 0 <= i < j < |report| ==> report[i].count >= report[j].count
  }

  /** Larger counts first. */
  function Falling(d: Duplicate): int { 0 - d.count }

  ghost predicate GoodEntry(table: seq<Pair>, n: nat, d: Duplicate)
    requires n <= |table|
  {
    d.count == Count(table, d.pair) > 1 && d.pair in table[..n]
  }

  lemma PrefixNext(table: seq<Pair>, n: nat, x: Pair)
    requires n < |table|
    ensures x in table[..n + 1] <==> x in table[..n] || x == table[n]
  {
    assert table[..n + 1] == table[..n] + [table[n]];
  }

  lemma StillGood(table: seq<Pair>, n: nat, d: Duplicate)
    requires n < |table|
    requires GoodEntry(table, n, d) || (d == Duplicate(table[n], Count(table, table[n])) && d.count > 1)
    ensures GoodEntry(table, n + 1, d)
  {
    PrefixNext(table, n, d.pair);
  }

  /** The report about the events met in the first `n` rows. */
  ghost predicate PartialReport(table: seq<Pair>, n: nat, report: seq<Duplicate>)
    requires n <= |table|
  {
    && SortedBy(report, Falling)
    && (forall i :: 0 <= i < |report| ==> GoodEntry(table, n, report[i]))
    && (forall i, j :: 0 <= i < j < |report| ==> report[i].pair != report[j].pair)
    && (forall x :: x in table[..n] && Count(table, x) > 1 ==> Listed(report, x))
  }

  /** A row whose event is listed already, or occurs once, adds nothing. */
  lemma RowAddsNothing(table: seq<Pair>, n: nat, report: seq<Duplicate>)
    requires n < |table| && PartialReport(table, n, report)
    requires table[n] in table[..n] || Count(table, table[n]) <= 1
    ensures PartialReport(table, n + 1, report)
  {
    forall x | x in table[..n + 1] && Count(table, x) > 1 ensures Listed(report, x) { PrefixNext(table, n, x); }
    forall i | 0 <= i < |report| ensures GoodEntry(table, n + 1, report[i]) { StillGood(table, n, report[i]); }
  }

  lemma InsertedListed(report: seq<Duplicate>, j: nat, d: Duplicate, x: Pair)
    requires j <= |report| && (x == d.pair || Listed(report, x))
    ensures Listed(Inserted(report, j, d), x)
  {
    var r := Inserted(report, j, d);
    if x == d.pair {
      assert r[j].pair == x;
    } else {
      var i :| 0 <= i < |report| && report[i].pair == x;
      assert r[if i < j then i else i + 1].pair == x;
    }
  }

  lemma InsertedDistinct(report: seq<Duplicate>, j: nat, d: Duplicate)
    requires j <= |report| && forall i, h :: 0 <= i < h < |report| ==> report[i].pair != report[h].pair
    requires forall i :: 0 <= i < |report| ==> report[i].pair != d.pair
    ensures
      var r := Inserted(report, j, d);
      forall i, h :: 0 <= i < h < |r| ==> r[i].pair != r[h].pair
  {
    var r := Inserted(report, j, d);
    forall i, h | 0 <= i < h < |r| ensures r[i].pair != r[h].pair {
      var i', h' := if i < j then i else i - 1, if h < j then h else h - 1;
      if i != j && h != j { assert report[i'].pair != report[h'].pair; }
    }
  }

  lemma InsertedGood(table: seq<Pair>, n: nat, report: seq<Duplicate>, j: nat, d: Duplicate)
    requires n <= |table| && j <= |report| && GoodEntry(table, n, d)
    requires forall i :: 0 <= i < |report| ==> GoodEntry(table, n, report[i])
    ensures forall i :: 0 <= i < |report| + 1 ==> GoodEntry(table, n, Inserted(report, j, d)[i])
  {
    var r := Inserted(report, j, d);
    forall i | 0 <= i < |r| ensures GoodEntry(table, n, r[i]) {
      assert i != j ==> r[i] == report[if i < j then i else i - 1];
    }
  }

  lemma RowAddsEntry(table: seq<Pair>, n: nat, report: seq<Duplicate>, j: nat, d: Duplicate)
    requires n < |table| && PartialReport(table, n, report)
    requires table[n] !in table[..n] && d == Duplicate(table[n], Count(table, table[n])) && d.count > 1
    requires j == PlaceFor(report, Falling, Falling(d))
    ensures PartialReport(table, n + 1, Inserted(report, j, d))
  {
    var r := Inserted(report, j, d);
    assert SortedBy(r, Falling) by { InsertedSorted(report, Falling, j, d); }
    forall i | 0 <= i < |report| ensures GoodEntry(table, n + 1, report[i]) { StillGood(table, n, report[i]); }
    StillGood(table, n, d);
    InsertedGood(table, n + 1, report, j, d);
    InsertedDistinct(report, j, d);
    forall x | x in table[..n + 1] && Count(table, x) > 1 ensures Listed(r, x) {
      PrefixNext(table, n, x);
      InsertedListed(report, j, d, x);
    }
  }

  lemma WholeReport(table: seq<Pair>, report: seq<Duplicate>)
    requires PartialReport(table, |table|, report)
    ensures IsDuplicateReport(table, report) && Descending(report)
  {
    assert forall i, j :: 0 <= i < j < |report| ==> Falling(report[i]) <= Falling(report[j]);
    assert forall i :: 0 <= i < |report| ==> GoodEntry(table, |table|, report[i]);
    forall x | Count(table, x) > 1 ensures Listed(report, x) {
      CountIn(table, x);
      assert table[..|table|] == table;
    }
  }

  /** The query as a loop over the rows: one entry per group of at least two, largest groups first. */
  method FindDuplicates(table: seq<Pair>) returns (report: seq<Duplicate>)
    ensures IsDuplicateReport(table, report) && Descending(report)
  {
    report := [];
    var n := 0;
    while n < |table|
      invariant 0 <= n <= |table| && PartialReport(table, n, report)
    {
      report := AddRow(table, n, report);
      n := n + 1;
    }
    WholeReport(table, report);
  }

  /** A group is entered when its first row is met. */
  method AddRow(table: seq<Pair>, n: nat, report: seq<Duplicate>) returns (r: seq<Duplicate>)
    requires n < |table| && PartialReport(table, n, report)
    ensures PartialReport(table, n + 1, r)
  {
    var d := Duplicate(table[n], Count(table, table[n]));
    if table[n] !in table[..n] && d.count > 1 {
      var j := PlaceFor(report, Falling, Falling(d));
      RowAddsEntry(table, n, report, j, d);
      r := Inserted(report, j, d);
    } else {
      RowAddsNothing(table, n, report);
      r := report;
    }
  }
}
