/** findPrimes in its two versions: the Go handler (cpu.go) and the worker thread (worker.js). */
module PrimeSieve {

  const CAP := 2_000_000
  const JS_DEFAULT := 1_000_000

  predicate Divides(d: int, k: int) { d > 0 && k % d == 0 }

  ghost predicate IsPrime(k: int) {
    k >= 2 && forall d :: 2 <= d < k ==> !Divides(d, k)
  }

  /** The primes below `n`, in order. */
  ghost function Primes(n: nat): seq<nat> {
    if n == 0 then [] else Primes(n - 1) + if IsPrime(n - 1) then [n - 1] else []
  }

  /** `k` has a divisor below `i` that is not above its square root. */
  ghost predicate Struck(k: int, i: int) {
    exists d :: 2 <= d < i && Square(d) <= k && Divides(d, k)
  }

  function Square(d: int): int { d * d }

  // ---------------------------------------------------------------- arithmetic

  lemma MulMonotone(a: int, b: int, c: int)
    requires a <= b && 0 <= c
    ensures a * c <= b * c
  {
    assert (b - a) * c >= 0;
  }

  lemma SquareMonotone(a: int, b: int)
    requires 0 <= a && 0 <= b
    ensures Square(a) < Square(b) <==> a < b
  {
    if a < b {
      MulMonotone(a, b, a);
      assert b * b == b * a + b * (b - a);
      assert b * (b - a) >= 1 by { MulMonotone(1, b - a, b); }
    } else {
      MulMonotone(b, a, b);
      MulMonotone(b, a, a);
    }
  }

  lemma ModUnique(d: int, m: int, r: int)
    requires 0 <= r < d
    ensures (d * m + r) % d == r
  {
    var q, t := (d * m + r) / d, (d * m + r) % d;
    assert d * (m - q) == t - r;
    if m - q >= 1 {
      MulMonotone(1, m - q, d);
    } else if m - q <= -1 {
      MulMonotone(m - q, -1, d);
    }
  }

  lemma DividesTrans(d: int, i: int, k: int)
    requires Divides(d, i) && Divides(i, k)
    ensures Divides(d, k)
  {
    assert k == i * (k / i) && i == d * (i / d);
    assert k == d * ((i / d) * (k / i));
    ModUnique(d, (i / d) * (k / i), 0);
  }

  /** Between two neighbouring multiples of `i` there is no other. */
  lemma NextMultiple(i: int, j: int, k: int)
    requires i > 0 && Divides(i, j) && j < k < j + i
    ensures !Divides(i, k)
  {
    assert k == i * (j / i) + (k - j);
    ModUnique(i, j / i, k - j);
  }

  lemma StepMultiple(i: int, j: int)
    requires i > 0 && Divides(i, j)
    ensures Divides(i, j + i)
  {
    assert j + i == i * (j / i + 1) + 0;
    ModUnique(i, j / i + 1, 0);
  }

  /** A composite has a divisor up to its square root. */
  lemma SmallDivisor(k: int, d: int) returns (e: int)
    requires 2 <= d < k && Divides(d, k)
    ensures 2 <= e && Square(e) <= k && Divides(e, k)
  {
    var q := k / d;
    assert k == d * q;
    if q <= 1 { MulMonotone(q, 1, d); }
    if d <= q {
      MulMonotone(d, q, d);
      e := d;
    } else {
      MulMonotone(q, d, q);
      ModUnique(q, d, 0);
      e := q;
    }
  }

  /** Once every candidate up to the root of the bound was used, what is not struck is prime. */
  lemma NotStruckIsPrime(k: int, i: int)
    requires 2 <= k < Square(i) && i >= 2
    ensures IsPrime(k) <==> !Struck(k, i)
  {
    if Struck(k, i) {
      var d :| 2 <= d < i && Square(d) <= k && Divides(d, k);
      MulMonotone(2, d, d);
      assert d < k;
    } else if !IsPrime(k) {
      var d :| 2 <= d < k && Divides(d, k);
      var e := SmallDivisor(k, d);
      SquareMonotone(e, i);
    }
  }

  /** Using a composite candidate would strike nothing new. */
  lemma CompositeAddsNothing(k: int, i: int)
    requires Struck(i, i) && i >= 2 && k >= 2
    ensures Struck(k, i + 1) <==> Struck(k, i)
  {
    if Struck(k, i + 1) {
      var e :| 2 <= e < i + 1 && Square(e) <= k && Divides(e, k);
      if e == i {
        var d :| 2 <= d < i && Square(d) <= i && Divides(d, i);
        DividesTrans(d, i, k);
        MulMonotone(1, i, i);
        assert 2 <= d < i && Square(d) <= k && Divides(d, k);
      }
    }
    if Struck(k, i) {
      var d :| 2 <= d < i && Square(d) <= k && Divides(d, k);
      assert 2 <= d < i + 1;
    }
  }

  lemma StruckNext(k: int, i: int)
    requires i >= 2
    ensures Struck(k, i + 1) <==> Struck(k, i) || (Square(i) <= k && Divides(i, k))
  {
    if Struck(k, i) {
      var d :| 2 <= d < i && Square(d) <= k && Divides(d, k);
      assert 2 <= d < i + 1;
    }
  }

  // ---------------------------------------------------------------- the sieve

  /** The inner loop: strike the multiples of `i` from its square on, below `max`. */
  method Strike(sieve: array<bool>, max: nat, i: int)
    requires 2 <= i && Square(i) < max <= sieve.Length
    modifies sieve
    ensures forall k :: 0 <= k < max ==>
              (sieve[k] <==> old(sieve[k]) && !(Square(i) <= k && Divides(i, k)))
  {
    var j := i * i;
    ModUnique(i, i, 0);
    while j < max
      invariant Square(i) <= j && Divides(i, j)
      invariant forall k :: 0 <= k < max ==>
                  (sieve[k] <==> old(sieve[k]) && !(Square(i) <= k < j && Divides(i, k)))
      decreases max - j
    {
      forall k | j < k < j + i ensures !Divides(i, k) { NextMultiple(i, j, k); }
      StepMultiple(i, j);
      sieve[j] := false;
      j := j + i;
    }
  }

  /** The outer loop: from all numbers but 0 and 1 down to the primes. */
  method StrikeAll(sieve: array<bool>, max: nat)
    requires max <= sieve.Length && forall k :: 0 <= k < max ==> (sieve[k] <==> k >= 2)
    modifies sieve
    ensures forall k :: 0 <= k < max ==> (sieve[k] <==> IsPrime(k))
  {
    var i := 2;
    while i * i < max
      invariant i >= 2
      invariant forall k :: 0 <= k < max ==> (sieve[k] <==> k >= 2 && !Struck(k, i))
      decreases max - i
    {
      MulMonotone(1, i, i);
      if sieve[i] {
        forall k | 2 <= k < max ensures Struck(k, i + 1) <==> Struck(k, i) || (Square(i) <= k && Divides(i, k)) {
          StruckNext(k, i);
        }
        Strike(sieve, max, i);
      } else {
        forall k | 2 <= k < max ensures Struck(k, i + 1) <==> Struck(k, i) {
          CompositeAddsNothing(k, i);
        }
      }
      i := i + 1;
    }
    forall k | 2 <= k < max ensures IsPrime(k) <==> !Struck(k, i) { NotStruckIsPrime(k, i); }
  }

  /** Go: a slice of exactly `max` flags, 0 and 1 cleared where they exist. */
  method GoSieve(max: nat) returns (sieve: array<bool>)
    ensures fresh(sieve) && sieve.Length == max
    ensures forall k :: 0 <= k < max ==> (sieve[k] <==> IsPrime(k))
  {
    sieve := new bool[max](_ => true);
    if max > 0 { sieve[0] := false; }
    if max > 1 { sieve[1] := false; }
    StrikeAll(sieve, max);
  }

  /** JavaScript: assigning elements 0 and 1 grows a shorter array to two. */
  method JsSieve(max: nat) returns (sieve: array<bool>)
    ensures fresh(sieve) && sieve.Length == (if max < 2 then 2 else max)
    ensures forall k :: 0 <= k < max ==> (sieve[k] <==> IsPrime(k))
  {
    sieve := new bool[if max < 2 then 2 else max](_ => true);
    sieve[0] := false;
    sieve[1] := false;
    StrikeAll(sieve, max);
  }

  // ---------------------------------------------------------------- the report

  datatype Report = Report(count: nat, first: seq<nat>, last: seq<nat>)

  /** The number of primes below the bound, with the first and last ten of them. */
  ghost function Expected(max: nat): Report {
    var ps := Primes(max);
    var n := |ps|;
    if n <= 10 then Report(n, ps, ps) else Report(n, ps[..10], ps[n - 10..])
  }

  /** A report after one more number. */
  function Extend(r: Report, i: nat): Report {
    var last := if |r.last| == 10 then r.last[1..] else r.last;
    Report(r.count + 1, if |r.first| < 10 then r.first + [i] else r.first, last + [i])
  }

  lemma ExpectedNext(i: nat)
    ensures Expected(i + 1) == if IsPrime(i) then Extend(Expected(i), i) else Expected(i)
  {
    var ps := Primes(i);
    var n := |ps|;
    if IsPrime(i) {
      var qs := ps + [i];
      assert Primes(i + 1) == qs;
      if n > 10 {
        assert qs[..10] == ps[..10];
        assert ps[n - 10..][1..] + [i] == qs[n + 1 - 10..];
      } else if n == 10 {
        assert qs[..10] == ps;
        assert ps[1..] + [i] == qs[1..];
      }
    } else {
      assert Primes(i + 1) == ps + [];
    }
  }

  /** Only the flags below the bound are read. */
  method Collect(sieve: array<bool>, max: nat) returns (r: Report)
    requires max <= sieve.Length && forall k :: 0 <= k < max ==> (sieve[k] <==> IsPrime(k))
    ensures r == Expected(max)
  {
    var count: nat, first: seq<nat>, last: seq<nat> := 0, [], [];
    var i: nat := 2;
    assert Primes(0) == [] && Primes(1) == [] && Primes(2) == [];
    while i < max
      invariant 2 <= i && (i <= max || i == 2)
      invariant Report(count, first, last) == Expected(i)
    {
      ExpectedNext(i);
      if sieve[i] {
        count := count + 1;
        if |first| < 10 { first := first + [i]; }
        if |last| == 10 { last := last[1..]; }
        last := last + [i];
      }
      i := i + 1;
    }
    r := Report(count, first, last);
  }

  datatype Outcome = Ok(report: Report) | Thrown

  /** Go: the bound is capped; a negative one cannot size the slice. */
  method GoFindPrimes(max: int) returns (r: Outcome)
    ensures max < 0 <==> r.Thrown?
    ensures 0 <= max <= 2_000_000 ==> r == Ok(Expected(max))
    ensures max > 2_000_000 ==> r == Ok(Expected(2_000_000))
  {
    var m := if max > CAP then CAP else max;
    if m < 0 { return Thrown; }
    var sieve := GoSieve(m);
    var report := Collect(sieve, m);
    return Ok(report);
  }

  /** JavaScript: zero counts as missing and means the default bound. */
  method JsFindPrimes(max: int) returns (r: Outcome)
    ensures max < 0 <==> r.Thrown?
    ensures max == 0 ==> r == Ok(Expected(1_000_000))
    ensures 0 < max <= 2_000_000 ==> r == Ok(Expected(max))
    ensures max > 2_000_000 ==> r == Ok(Expected(2_000_000))
  {
    var m := if max == 0 then JS_DEFAULT else max;
    m := if m > CAP then CAP else m;
    if m < 0 { return Thrown; }
    var sieve := JsSieve(m);
    var report := Collect(sieve, m);
    return Ok(report);
  }

  lemma {:induction false} TwoIsListed(n: nat)
    requires n >= 3
    ensures |Primes(n)| >= 1
  {
    if n == 3 {
      assert IsPrime(2);
    } else {
      TwoIsListed(n - 1);
    }
  }

  /** The two runtimes give the same answer exactly for the bounds other than zero. */
  method RuntimesAgree(max: int) returns (go: Outcome, js: Outcome)
    ensures go == js <==> max != 0
  {
    go := GoFindPrimes(max);
    js := JsFindPrimes(max);
    TwoIsListed(JS_DEFAULT);
    assert Primes(0) == [];
  }
}
