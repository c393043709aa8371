/** The in-process order queue with its single drain loop (memory-order.dispatcher.ts). */
module MemoryDispatcher {
  import opened Tasks

  /** Fields and histories; `inFlight` is the event the suspended drain loop waits for. */
  datatype State<E> = State(
    queue: seq<E>, draining: bool, stopped: bool, enqueued: nat, processed: nat, failed: nat,
    inFlight: Option<E>, dispatched: seq<E>, attempted: seq<E>)

  datatype Event<E> = DispatchCall(e: E) | Resumed(ok: bool) | Destroyed

  function Initial<E>(): State<E> { State([], false, false, 0, 0, 0, None, [], []) }

  /** The drain loop from its test to the next suspension or its end. */
  function Loop<E>(s: State<E>): State<E> {
    if s.queue != [] && !s.stopped then
      s.(queue := s.queue[1..], inFlight := Some(s.queue[0]), attempted := s.attempted + [s.queue[0]])
    else s.(draining := false)
  }

  function Step<E>(s: State<E>, x: Event<E>): State<E> {
    match x
    case DispatchCall(e) =>
      if s.stopped then s
      else
        var s' := s.(queue := s.queue + [e], enqueued := s.enqueued + 1, dispatched := s.dispatched + [e]);
        if s'.draining then s' else Loop(s'.(draining := true))
    case Resumed(ok) =>
      if s.inFlight.None? then s
      else Loop(if ok then s.(inFlight := None, processed := s.processed + 1)
                else s.(inFlight := None, failed := s.failed + 1))
    case Destroyed => s.(stopped := true)
  }

  function Run<E>(xs: seq<Event<E>>): State<E> {
    if xs == [] then Initial() else Step(Run(xs[..|xs| - 1]), xs[|xs| - 1])
  }

  /** Nothing is lost or reordered, one event is handled at a time, and an idle queue is empty. */
  ghost predicate Inv<E>(s: State<E>) {
    && s.enqueued == s.processed + s.failed + |s.queue| + (if s.inFlight.Some? then 1 else 0)
    && (s.draining <==> s.inFlight.Some?)
    && (!s.draining && !s.stopped ==> s.queue == [])
    && s.dispatched == s.attempted + s.queue
    && |s.attempted| == s.processed + s.failed + (if s.inFlight.Some? then 1 else 0)
    && (s.inFlight.Some? ==> s.attempted[|s.attempted| - 1] == s.inFlight.value)
  }

  lemma LoopKeeps<E>(s: State<E>)
    requires s.inFlight.None? && s.draining
    requires s.enqueued == s.processed + s.failed + |s.queue| && |s.attempted| == s.processed + s.failed
    requires s.dispatched == s.attempted + s.queue
    ensures Inv(Loop(s))
  {
    if s.queue != [] {
      assert s.attempted + s.queue == (s.attempted + [s.queue[0]]) + s.queue[1..];
    }
  }

  lemma StepKeeps<E>(s: State<E>, x: Event<E>)
    requires Inv(s)
    ensures Inv(Step(s, x))
  {
    match x
    case DispatchCall(e) =>
      if !s.stopped {
        assert s.dispatched + [e] == s.attempted + (s.queue + [e]);
        var s' := s.(queue := s.queue + [e], enqueued := s.enqueued + 1, dispatched := s.dispatched + [e]);
        if !s.draining { LoopKeeps(s'.(draining := true)); }
      }
    case Resumed(ok) =>
      if s.inFlight.Some? {
        LoopKeeps(if ok then s.(inFlight := None, processed := s.processed + 1)
                  else s.(inFlight := None, failed := s.failed + 1));
      }
    case Destroyed =>
  }

  /** In every reachable state: the balance, a single event in flight, no idle backlog, attempts in dispatch order. */
  lemma {:induction false} RunKeeps<E>(xs: seq<Event<E>>)
    ensures Inv(Run(xs))
  {
    if xs == [] {
    } else {
      RunKeeps(xs[..|xs| - 1]);
      StepKeeps(Run(xs[..|xs| - 1]), xs[|xs| - 1]);
    }
  }

  /** How often the loop resumed with the given outcome. */
  function Outcomes<E>(xs: seq<Event<E>>, ok: bool): nat {
    if xs == [] then 0
    else
      var n := |xs| - 1;
      Outcomes(xs[..n], ok)
      + if Run(xs[..n]).inFlight.Some? && xs[n].Resumed? && xs[n].ok == ok then 1 else 0
  }

  lemma StepCounts<E>(s: State<E>, x: Event<E>)
    ensures
      var s' := Step(s, x);
      && s'.processed == s.processed + (if s.inFlight.Some? && x.Resumed? && x.ok then 1 else 0)
      && s'.failed == s.failed + (if s.inFlight.Some? && x.Resumed? && !x.ok then 1 else 0)
      && s'.enqueued == s.enqueued + (if x.DispatchCall? && !s.stopped then 1 else 0)
  {
  }

  /** processed counts the successes, failed the failures. */
  lemma {:induction false} CountersMean<E>(xs: seq<Event<E>>)
    ensures Run(xs).processed == Outcomes(xs, true) && Run(xs).failed == Outcomes(xs, false)
  {
    if xs != [] {
      CountersMean(xs[..|xs| - 1]);
      StepCounts(Run(xs[..|xs| - 1]), xs[|xs| - 1]);
    }
  }

  lemma DestroyStops<E>(s: State<E>)
    ensures Step(s, Destroyed) == s.(stopped := true)
  {
  }

  /** After the module is destroyed no further event is attempted or accepted. */
  lemma StoppedStays<E>(s: State<E>, x: Event<E>)
    requires s.stopped
    ensures Step(s, x).stopped && Step(s, x).attempted == s.attempted && Step(s, x).dispatched == s.dispatched
  {
  }

  class Dispatcher<E> {
    var queue: seq<E>
    var draining: bool
    var stopped: bool
    var enqueued: nat
    var processed: nat
    var failed: nat
    var inFlight: Option<E>
    ghost var dispatched: seq<E>
    ghost var attempted: seq<E>

    ghost function View(): State<E> reads this {
      State(queue, draining, stopped, enqueued, processed, failed, inFlight, dispatched, attempted)
    }

    constructor ()
      ensures View() == Initial()
    {
      queue, draining, stopped := [], false, false;
      enqueued, processed, failed := 0, 0, 0;
      inFlight, dispatched, attempted := None, [], [];
    }

    /** One turn of the loop; it suspends as soon as it has taken an event. */
    method Continue()
      modifies this`queue, this`draining, this`inFlight, this`attempted
      ensures View() == Loop(old(View()))
    {
      if |queue| > 0 && !stopped {
        var e := queue[0];
        queue := queue[1..];
        inFlight := Some(e);
        attempted := attempted + [e];
      } else {
        draining := false;
      }
    }

    method Drain()
      modifies this`queue, this`draining, this`inFlight, this`attempted
      ensures View() == if old(draining) then old(View()) else Loop(old(View()).(draining := true))
    {
      if draining { return; }
      draining := true;
      Continue();
    }

    method Dispatch(e: E) returns (accepted: bool)
      modifies this
      ensures accepted == !old(stopped)
      ensures View() == Step(old(View()), DispatchCall(e))
    {
      if stopped { return false; }
      queue := queue + [e];
      enqueued := enqueued + 1;
      dispatched := dispatched + [e];
      Drain();
      return true;
    }

    /** recordEvent answered; a failed event is not put back. */
    method OnRecorded(ok: bool)
      modifies this
      ensures View() == Step(old(View()), Resumed(ok))
    {
      if inFlight.None? { return; }
      inFlight := None;
      if ok { processed := processed + 1; } else { failed := failed + 1; }
      Continue();
    }

    method Destroy()
      modifies this`stopped
      ensures View() == Step(old(View()), Destroyed)
    {
      stopped := true;
    }
  }
}
