/** executeWithRetry of the Go pool (pool.go): attempts, backoff with jitter, cancellation. */
module Retry {

  datatype Config = Config(maxRetries: int, baseDelay: int, maxDelay: int)

  /** What the environment decides in one round: the handler's answer, the random draw, the context. */
  datatype Round = Round(ok: bool, draw: nat, cancelled: bool)

  /** Nothing: no attempt was made, and the caller sees neither result nor error. */
  datatype Result = Succeeded | GaveUp | Cancelled | Panicked | Nothing

  function Retries(c: Config): int { if c.maxRetries == 0 then 3 else c.maxRetries }

  function Pow2(n: nat): nat { if n == 0 then 1 else 2 * Pow2(n - 1) }

  /** The delay before jitter after failed attempt `n`. */
  function Backoff(c: Config, n: nat): int {
    var d := c.baseDelay * Pow2(n);
    if d > c.maxDelay && c.maxDelay > 0 then c.maxDelay else d
  }

  /** The sum of the first `n` delays before jitter. */
  function TotalBackoff(c: Config, n: nat): int {
    if n == 0 then 0 else TotalBackoff(c, n - 1) + Backoff(c, n - 1)
  }

  lemma {:induction false} Pow2Positive(n: nat)
    ensures Pow2(n) >= 1
  {
    if n > 0 { Pow2Positive(n - 1); }
  }

  lemma Pow2Next(n: nat)
    ensures Pow2(n + 1) == 2 * Pow2(n)
  {
  }

  /** Delays start at the base and double from attempt to attempt, up to the cap if there is one. */
  lemma BackoffDoubles(c: Config, n: nat)
    ensures c.maxDelay <= 0 ==> Backoff(c, 0) == c.baseDelay && Backoff(c, n + 1) == 2 * Backoff(c, n)
    ensures c.maxDelay > 0 ==>
              && Backoff(c, 0) == (if c.baseDelay <= c.maxDelay then c.baseDelay else c.maxDelay)
              && Backoff(c, n + 1) == if 2 * Backoff(c, n) <= c.maxDelay then 2 * Backoff(c, n) else c.maxDelay
  {
    Pow2Next(n);
    assert c.baseDelay * Pow2(n + 1) == 2 * (c.baseDelay * Pow2(n));
  }

  /** The jitter draw is defined after every attempt exactly if the first delay leaves room for it. */
  lemma DrawDefined(c: Config)
    ensures (forall n: nat :: Backoff(c, n) >= 2) <==> c.baseDelay >= 2 && c.maxDelay != 1
  {
    assert Backoff(c, 0) >= 2 <==> c.baseDelay >= 2 && c.maxDelay != 1;
    if c.baseDelay >= 2 && c.maxDelay != 1 {
      forall n: nat ensures Backoff(c, n) >= 2 {
        Pow2Positive(n);
        assert c.baseDelay * Pow2(n) >= 2 * Pow2(n);
      }
    }
  }

  /** A failed attempt is followed by a complete wait. */
  ghost predicate Waits(c: Config, round: nat -> Round, i: nat) {
    !round(i).ok && Backoff(c, i) >= 2 && !round(i).cancelled
  }

  /**
   * At most one attempt more than the retries. The last attempt decides the outcome, every earlier one
   * failed and was waited out, and each wait is its delay plus less than half of it.
   */
  method Execute(c: Config, round: nat -> Round) returns (r: Result, calls: nat, waited: int)
    ensures calls == 0 <==> c.maxRetries < 0
    ensures c.maxRetries == 0 ==> calls <= 4
    ensures c.maxRetries > 0 ==> calls <= c.maxRetries + 1
    ensures Retries(c) >= 0 ==> calls <= Retries(c) + 1
    ensures forall i :: 0 <= i < calls - 1 ==> Waits(c, round, i)
    ensures r == Nothing <==> calls == 0
    ensures r == Succeeded <==> calls > 0 && round(calls - 1).ok
    ensures r == GaveUp <==> calls > 0 && calls == Retries(c) + 1 && !round(calls - 1).ok
    ensures r == Panicked <==> 0 < calls <= Retries(c) && !round(calls - 1).ok && Backoff(c, calls - 1) < 2
    ensures r == Cancelled <==> 0 < calls <= Retries(c) && !round(calls - 1).ok && Backoff(c, calls - 1) >= 2
    ensures r == Cancelled ==> round(calls - 1).cancelled
    ensures c.baseDelay >= 2 && c.maxDelay != 1 ==> r != Panicked
    ensures calls > 0 ==> 2 * TotalBackoff(c, calls - 1) <= 2 * waited <= 3 * TotalBackoff(c, calls - 1)
    ensures calls == 0 ==> waited == 0
  {
    var retries := Retries(c);
    calls, waited := 0, 0;
    DrawDefined(c);
    var attempt := 0;
    while attempt <= retries
      invariant 0 <= attempt == calls <= (if retries < 0 then 0 else retries + 1)
      invariant forall i :: 0 <= i < calls ==> !round(i).ok
      invariant forall i :: 0 <= i < calls && i < retries ==> Waits(c, round, i)
      invariant var n := if attempt <= retries then attempt else retries;
                n >= 0 ==> 2 * TotalBackoff(c, n) <= 2 * waited <= 3 * TotalBackoff(c, n)
      invariant retries < 0 ==> waited == 0
      decreases retries - attempt
    {
      calls := calls + 1;
      if round(attempt).ok { return Succeeded, calls, waited; }
      if attempt < retries {
        var delay := Backoff(c, attempt);
        if delay < 2 { return Panicked, calls, waited; }
        var jitter := round(attempt).draw % (delay / 2);
        if round(attempt).cancelled { return Cancelled, calls, waited; }
        waited := waited + delay + jitter;
      }
      attempt := attempt + 1;
    }
    r := if retries < 0 then Nothing else GaveUp;
  }
}
