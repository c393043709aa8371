/**
 * Percentile rules (order-consumer.ts, consumer/stats.go, load-test-metrics.util.ts) and the Go pool's
 * latency window with its 99th percentile (pool/stats.go). Ratios are exact, samples are integers.
 */
module Percentiles {
  import opened Tasks

  /** Math.ceil */
  function Ceil(x: real): int { -((-x).Floor) }

  // ---------------------------------------------------------------- three index rules

  /** Go: integer division rounding up, then one down, then within range. */
  function GoIndex(n: nat, p: nat): int
  {
    var up := (n * p + 99) / 100;
    var index := if up > 0 then up - 1 else up;
    if index >= n then n - 1 else index
  }

  /** TypeScript consumer. */
  function TsIndex(n: nat, p: nat): int {
    Min(Max(Ceil((n as real) * (p as real) / 100.0) - 1, 0), n - 1)
  }

  /** Load test: rounds down. */
  function FloorIndex(n: nat, p: nat): int {
    Min(((n as real) * (p as real / 100.0)).Floor, n - 1)
  }

  /** How many samples a percentile has to cover. */
  function Rank(n: nat, p: nat): nat { (n * p + 99) / 100 }

  lemma CeilHundredth(m: nat)
    ensures Ceil(m as real / 100.0) == (m + 99) / 100
    ensures (m as real / 100.0).Floor == m / 100
  {
    var q, r := m / 100, m % 100;
    assert m as real / 100.0 == q as real + (r as real) / 100.0;
    assert 0.0 <= (r as real) / 100.0 < 1.0;
    if r == 0 {
      assert -(m as real / 100.0) == (-q) as real;
    } else {
      assert (-(q as real) - (r as real) / 100.0).Floor == -q - 1;
    }
  }

  lemma ProductBound(n: nat, p: nat)
    requires p <= 100
    ensures n * p <= n * 100
  {
    assert n * (100 - p) >= 0;
  }

  lemma ProductReal(n: nat, p: nat)
    ensures (n as real) * (p as real) == (n * p) as real
    ensures (n as real) * (p as real / 100.0) == (n * p) as real / 100.0
  {
  }

  /** The two consumers pick the same place. */
  lemma ConsumersAgree(n: nat, p: nat)
    requires n >= 1 && p <= 100
    ensures 0 <= GoIndex(n, p) == TsIndex(n, p) < n
  {
    CeilHundredth(n * p);
    ProductReal(n, p);
  }

  /** The load test's rule never picks a smaller place: at inner whole ranks the next one, otherwise the same. */
  lemma FloorRule(n: nat, p: nat)
    requires n >= 1 && p <= 100
    ensures GoIndex(n, p) <= FloorIndex(n, p) < n
    ensures FloorIndex(n, p) == GoIndex(n, p) + if (n * p) % 100 != 0 || p == 0 || p == 100 then 0 else 1
  {
    CeilHundredth(n * p);
    ProductReal(n, p);
    ProductBound(n, p);
    if 0 < p < 100 {
      assert n * p > 0 && n * (100 - p) > 0;
    }
  }

  // ---------------------------------------------------------------- nearest rank

  ghost predicate Sorted(s: seq<int>) {
    forall i, j :: 0 <= i < j < |s| ==> s[i] <= s[j]
  }

  ghost function AtMost(s: seq<int>, v: int): nat {
    if s == [] then 0 else AtMost(s[..|s| - 1], v) + if s[|s| - 1] <= v then 1 else 0
  }

  ghost function Below(s: seq<int>, v: int): nat {
    if s == [] then 0 else Below(s[..|s| - 1], v) + if s[|s| - 1] < v then 1 else 0
  }

  /** The nearest-rank percentile: enough samples are at most `v`, too few are below it. */
  ghost predicate NearestRank(s: seq<int>, p: nat, v: int) {
    && v in s
    && AtMost(s, v) >= Rank(|s|, p)
    && (Below(s, v) < Rank(|s|, p) || Below(s, v) == 0)
  }

  lemma {:induction false} SortedAtMost(s: seq<int>, i: nat)
    requires Sorted(s) && i < |s|
    ensures AtMost(s, s[i]) >= i + 1 && Below(s, s[i]) <= i
  {
    var init := s[..|s| - 1];
    if i < |s| - 1 {
      SortedAtMost(init, i);
    } else {
      AllBounds(init, s[i]);
    }
  }

  lemma {:induction false} AllBounds(s: seq<int>, v: int)
    requires forall i :: 0 <= i < |s| ==> s[i] <= v
    ensures AtMost(s, v) == |s| && Below(s, v) <= |s|
  {
    if s != [] { AllBounds(s[..|s| - 1], v); }
  }

  lemma {:induction false} CountsAppend(a: seq<int>, b: seq<int>, v: int)
    ensures AtMost(a + b, v) == AtMost(a, v) + AtMost(b, v)
    ensures Below(a + b, v) == Below(a, v) + Below(b, v)
  {
    if b == [] {
      assert a + b == a;
    } else {
      assert (a + b)[..|a + b| - 1] == a + b[..|b| - 1];
      CountsAppend(a, b[..|b| - 1], v);
    }
  }

  lemma CountsSplit(s: seq<int>, i: nat, v: int)
    requires i < |s|
    ensures
      var rest := s[..i] + s[i + 1..];
      && AtMost(s, v) == AtMost(rest, v) + (if s[i] <= v then 1 else 0)
      && Below(s, v) == Below(rest, v) + (if s[i] < v then 1 else 0)
  {
    assert s == s[..i] + ([s[i]] + s[i + 1..]);
    CountsAppend(s[..i], [s[i]] + s[i + 1..], v);
    CountsAppend([s[i]], s[i + 1..], v);
    assert [s[i]][..0] == [];
    CountsAppend(s[..i], s[i + 1..], v);
  }

  lemma RemoveSame(s: seq<int>, i: nat)
    requires i < |s|
    ensures multiset(s[..i] + s[i + 1..]) == multiset(s) - multiset{s[i]}
  {
    assert s == s[..i] + [s[i]] + s[i + 1..];
  }

  lemma {:induction false} CountsPermute(a: seq<int>, b: seq<int>, v: int)
    requires multiset(a) == multiset(b)
    ensures AtMost(a, v) == AtMost(b, v) && Below(a, v) == Below(b, v) && |a| == |b|
  {
    assert |multiset(a)| == |a| && |multiset(b)| == |b|;
    if a != [] {
      var n := |a| - 1;
      assert a[n] in multiset(b);
      var i :| 0 <= i < |b| && b[i] == a[n];
      RemoveSame(a, n);
      RemoveSame(b, i);
      assert a[..n] + a[n + 1..] == a[..n];
      CountsPermute(a[..n], b[..i] + b[i + 1..], v);
      CountsSplit(b, i, v);
    }
  }

  /** Whatever sorts the samples, the consumers' index finds the nearest-rank percentile of the samples. */
  lemma PercentileIsNearestRank(samples: seq<int>, sorted: seq<int>, p: nat)
    requires |samples| >= 1 && p <= 100 && Sorted(sorted) && multiset(sorted) == multiset(samples)
    ensures
      var i := GoIndex(|samples|, p);
      0 <= i < |sorted| && NearestRank(samples, p, sorted[i])
  {
    var i := GoIndex(|samples|, p);
    ConsumersAgree(|samples|, p);
    ProductBound(|samples|, p);
    assert |multiset(samples)| == |samples| && |multiset(sorted)| == |sorted|;
    SortedAtMost(sorted, i);
    CountsPermute(sorted, samples, sorted[i]);
    assert sorted[i] in multiset(samples);
  }

  /** There is only one nearest-rank percentile, so rules that meet it give the same value. */
  lemma NearestRankUnique(s: seq<int>, p: nat, v: int, w: int)
    requires NearestRank(s, p, v) && NearestRank(s, p, w)
    ensures v == w
  {
    Occurs(s, v);
    Occurs(s, w);
    if v < w {
      BelowAtLeast(s, v, w);
    } else if w < v {
      BelowAtLeast(s, w, v);
    }
  }

  lemma {:induction false} Occurs(s: seq<int>, v: int)
    requires v in s
    ensures AtMost(s, v) >= 1
  {
    if s[|s| - 1] != v { Occurs(s[..|s| - 1], v); }
  }

  lemma {:induction false} BelowAtLeast(s: seq<int>, v: int, w: int)
    requires v < w
    ensures Below(s, w) >= AtMost(s, v)
  {
    if s != [] { BelowAtLeast(s[..|s| - 1], v, w); }
  }

  // ---------------------------------------------------------------- sortInt64s

  /** `s[i]` moved down to place `h`, the elements between shifted up by one. */
  function Moved(s: seq<int>, h: nat, i: nat): (r: seq<int>)
    requires h <= i < |s|
    ensures |r| == |s|
  {
    s[..h] + [s[i]] + s[h..i] + s[i + 1..]
  }

  lemma MovedSame(s: seq<int>, h: nat, i: nat)
    requires h <= i < |s|
    ensures multiset(Moved(s, h, i)) == multiset(s)
  {
    assert s == s[..h] + s[h..i] + [s[i]] + s[i + 1..];
  }

  /** `t` is `s` with `s[i]` moved down to place `h`, and everything it passed is larger. */
  ghost predicate Sifted(s: seq<int>, t: seq<int>, h: nat, i: nat) {
    && h <= i < |s| == |t| && t[h] == s[i]
    && (h > 0 ==> s[h - 1] <= s[i])
    && (forall k :: 0 <= k < h ==> t[k] == s[k])
    && (forall k :: h < k <= i ==> t[k] == s[k - 1] && t[k] > s[i])
    && (forall k :: i < k < |s| ==> t[k] == s[k])
  }

  lemma SiftedSame(s: seq<int>, t: seq<int>, h: nat, i: nat)
    requires Sifted(s, t, h, i)
    ensures multiset(t) == multiset(s)
  {
    var m := Moved(s, h, i);
    forall k | 0 <= k < |s| ensures t[k] == m[k] {
      if h < k <= i { assert m[k] == s[h..i][k - h - 1]; }
    }
    assert t == m;
    MovedSame(s, h, i);
  }

  /** The inner loop and the final store. */
  method PlaceKey(a: array<int>, i: nat) returns (h: nat)
    requires i < a.Length
    modifies a
    ensures Sifted(old(a[..]), a[..], h, i)
  {
    var key := a[i];
    ghost var s := a[..];
    var j := i - 1;
    while j >= 0 && a[j] > key
      invariant -1 <= j < i
      invariant forall k :: 0 <= k <= j ==> a[k] == s[k]
      invariant forall k :: j + 1 < k <= i ==> a[k] == s[k - 1] && a[k] > key
      invariant forall k :: i < k < a.Length ==> a[k] == s[k]
    {
      a[j + 1] := a[j];
      j := j - 1;
    }
    a[j + 1] := key;
    h := j + 1;
  }

  /** One turn of the insertion sort: `a[i]` finds its place among the sorted `a[..i]`. */
  method Insert(a: array<int>, i: nat)
    requires i < a.Length && Sorted(a[..i])
    modifies a
    ensures Sorted(a[..i + 1]) && multiset(a[..]) == multiset(old(a[..]))
  {
    ghost var before := a[..];
    assert before[..i] == a[..i];
    var h := PlaceKey(a, i);
    SiftedSame(before, a[..], h, i);
    SiftedSorted(before, a[..], h, i);
    assert a[..][..i + 1] == a[..i + 1];
  }

  lemma SiftedSorted(s: seq<int>, t: seq<int>, h: nat, i: nat)
    requires Sifted(s, t, h, i) && Sorted(s[..i])
    ensures Sorted(t[..i + 1])
  {
    var r := t[..i + 1];
    forall x, y | 0 <= x < y < |r| ensures r[x] <= r[y] {
      SiftedOrder(s, t, h, i, x, y);
    }
  }

  lemma SiftedOrder(s: seq<int>, t: seq<int>, h: nat, i: nat, x: nat, y: nat)
    requires Sifted(s, t, h, i) && Sorted(s[..i]) && x < y <= i
    ensures t[x] <= t[y]
  {
    var p := s[..i];
    if y < h {
      assert p[x] <= p[y];
    } else if y == h {
      assert x < h - 1 ==> p[x] <= p[h - 1];
    } else if x < h {
      assert x < y - 1 ==> p[x] <= p[y - 1];
    } else if x > h {
      assert p[x - 1] <= p[y - 1];
    }
  }

  method SortInt64s(a: array<int>)
    modifies a
    ensures Sorted(a[..]) && multiset(a[..]) == multiset(old(a[..]))
  {
    var i := 1;
    while i < a.Length
      invariant 1 <= i && (i <= a.Length || i == 1)
      invariant i <= a.Length ==> Sorted(a[..i])
      invariant multiset(a[..]) == multiset(old(a[..]))
    {
      Insert(a, i);
      i := i + 1;
    }
    if a.Length > 0 { assert a[..i] == a[..]; }
  }

  // ---------------------------------------------------------------- the latency window

  const WINDOW := 1000

  function Tail(s: seq<int>): seq<int> {
    if |s| <= WINDOW then s else s[|s| - WINDOW..]
  }

  class Stats {
    var latencies: seq<int>
    ghost var history: seq<int>

    /** The window holds the most recent samples. */
    ghost predicate Valid() reads this { latencies == Tail(history) }

    constructor ()
      ensures Valid() && history == []
    {
      latencies, history := [], [];
    }

    method RecordLatency(ms: int)
      requires Valid()
      modifies this
      ensures Valid() && history == old(history) + [ms]
      ensures |latencies| == (if |history| < 1000 then |history| else 1000)
      ensures latencies == history[|history| - |latencies|..]
    {
      latencies := latencies + [ms];
      if |latencies| > WINDOW { latencies := latencies[|latencies| - WINDOW..]; }
      history := history + [ms];
    }

    /** The nearest-rank 99th percentile of the last (at most) thousand latencies; zero without any. */
    method P99LatencyMs() returns (v: int)
      requires Valid()
      ensures history == [] ==> v == 0
      ensures history != [] ==> NearestRank(Tail(history), 99, v)
    {
      var n := |latencies|;
      if n == 0 { return 0; }
      var sorted := new int[n](i requires 0 <= i < n reads this => if 0 <= i < |latencies| then latencies[i] else 0);
      assert sorted[..] == latencies;
      ghost var samples := latencies;
      SortInt64s(sorted);
      var idx := Ceil((n as real) * 0.99) - 1;
      if idx >= n { idx := n - 1; }
      CeilHundredth(n * 99);
      assert (n as real) * 0.99 == (n * 99) as real / 100.0;
      PercentileIsNearestRank(samples, sorted[..], 99);
      assert idx == GoIndex(n, 99);
      v := sorted[idx];
    }
  }
}
