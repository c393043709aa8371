/** One consumer instance in its own form (order-consumer.ts); handleMessage is a path through the protocol. */
module OrderConsumer {
  import opened Tasks
  import opened CommitProtocol

  /** The protocol steps of one uninterrupted call, given whether processing works and how the commit answers. */
  function Script(c: Config, k: nat, ok: bool, answer: Answer): seq<Event> {
    if c.mode == AfterProcess then [Process(k, ok), Finish(k, answer)]
    else
      match answer
      case Stored => [EarlyCommit(k), Process(k, ok), Finish(k, Stored)]
      case Refused => [Crash(k)]
      case Swallowed => [CancelledCommit(k), Process(k, ok), Finish(k, Stored)]
  }

  lemma RunOne(c: Config, s: State, e: Event)
    ensures Run(c, s, [e]) == Step(c, s, e)
  {
    assert [e][..0] == [];
  }

  lemma RunTwo(c: Config, s: State, e: Event, f: Event)
    ensures Run(c, s, [e, f]) == Step(c, Step(c, s, e), f)
  {
    assert [e, f][..1] == [e];
    RunOne(c, s, e);
  }

  lemma RunThree(c: Config, s: State, e: Event, f: Event, g: Event)
    ensures Run(c, s, [e, f, g]) == Step(c, Step(c, Step(c, s, e), f), g)
  {
    assert [e, f, g][..2] == [e, f];
    RunTwo(c, s, e, f);
  }

  class Instance {
    const c: Config
    const k: nat
    var group: State
    var processed: nat
    var failed: nat
    var running: bool
    var crashed: bool

    /** The instance's own counters agree with the group's view of it. */
    ghost predicate Valid() reads this {
      && k < |group.consumers|
      && processed == group.consumers[k].processed
      && running == group.consumers[k].alive
    }

    constructor (c: Config, before: State)
      ensures this.c == c && k == |before.consumers| && Valid() && running && !crashed && processed == failed == 0
      ensures group == Step(c, before, Join)
    {
      this.c, k := c, |before.consumers|;
      group := before.(consumers := before.consumers + [Consumer(true, None, 0)]);
      processed, failed, running, crashed := 0, 0, true, false;
    }

    /** Disconnect without committing. */
    method LeaveWithoutCommit()
      requires Valid()
      modifies this`group, this`running
      ensures Valid() && !running && group == Lose(old(group), k)
    {
      group := Lose(group, k);
      running := false;
    }

    /** process() and the statistics around it. */
    method ProcessMessage(ok: bool)
      requires Valid() && Working(group, k)
      modifies this`group, this`processed, this`failed
      ensures Valid() && Working(group, k) && group == Attempt(old(group), k, ok)
      ensures group.consumers[k].flight.value.phase == Done
      ensures processed == old(processed) + (if ok then 1 else 0)
      ensures failed == old(failed) + (if ok then 0 else 1)
    {
      group := Attempt(group, k, ok);
      if ok { processed := processed + 1; } else { failed := failed + 1; }
    }

    /** Before processing: commit first, if the mode says so. */
    method CommitEarly(answer: Answer)
      requires Valid() && Working(group, k) && group.consumers[k].flight.value.phase == Fetched
      requires c.mode == BeforeProcess
      modifies this`group, this`running
      ensures Valid()
      ensures group == match answer
                       case Stored => SetPhase(Commit(old(group), k), k, Cleared)
                       case Refused => Lose(old(group), k)
                       case Swallowed => SetPhase(old(group), k, Cleared)
    {
      match answer
      case Stored => group := SetPhase(Commit(group, k), k, Cleared);
      case Refused => LeaveWithoutCommit();
      case Swallowed => group := SetPhase(group, k, Cleared);
    }

    /** After processing: the crash point, then the commit if the mode says so, then on to the next offset. */
    method Conclude(answer: Answer)
      requires Valid() && Working(group, k) && group.consumers[k].flight.value.phase == Done
      modifies this`group, this`running, this`crashed
      ensures Valid() && group == Step(c, old(group), Finish(k, answer))
      ensures crashed == (old(crashed) || (c.crashAfter > 0 && processed >= c.crashAfter))
    {
      if c.crashAfter > 0 && processed >= c.crashAfter {
        crashed := true;
        LeaveWithoutCommit();
        return;
      }
      if c.mode == AfterProcess {
        if answer == Refused {
          LeaveWithoutCommit();
          return;
        }
        if answer == Stored { group := Commit(group, k); }
      }
      group := Advance(group, k);
    }

    /**
     * `ok`: processing does not throw. `answer`: what the commit does; one that throws ends the instance.
     * Only the Go consumer swallows one, and its crash point is off.
     */
    method HandleMessage(ok: bool, answer: Answer)
      requires Valid() && Working(group, k) && group.consumers[k].flight.value.phase == Fetched
      modifies this`group, this`processed, this`failed, this`running, this`crashed
      ensures Valid()
      ensures group == Run(c, old(group), Script(c, k, ok, answer))
      ensures
        var f := old(group).consumers[k].flight.value;
        if c.mode == BeforeProcess && answer == Refused then
          processed == old(processed) && failed == old(failed) && group.rows == old(group).rows
        else
          && processed == old(processed) + (if ok then 1 else 0) && failed == old(failed) + (if ok then 0 else 1)
          && group.rows == old(group).rows + if ok then [Row(f.partition, f.offset)] else []
      ensures crashed == (old(crashed) || (c.crashAfter > 0 && processed >= c.crashAfter
                                           && (c.mode == AfterProcess || answer != Refused)))
    {
      ScriptSteps(c, group, k, ok, answer);
      if c.mode == BeforeProcess {
        CommitEarly(answer);
        if answer == Refused { return; }
      }
      ProcessMessage(ok);
      Conclude(if c.mode == AfterProcess then answer else Stored);
    }
  }

  lemma ScriptSteps(c: Config, s: State, k: nat, ok: bool, answer: Answer)
    requires Working(s, k) && s.consumers[k].flight.value.phase == Fetched
    ensures
      Run(c, s, Script(c, k, ok, answer)) ==
      if c.mode == AfterProcess then Step(c, Attempt(s, k, ok), Finish(k, answer))
      else match answer
           case Stored => Step(c, Attempt(SetPhase(Commit(s, k), k, Cleared), k, ok), Finish(k, Stored))
           case Refused => Lose(s, k)
           case Swallowed => Step(c, Attempt(SetPhase(s, k, Cleared), k, ok), Finish(k, Stored))
  {
    if c.mode == AfterProcess {
      RunTwo(c, s, Process(k, ok), Finish(k, answer));
    } else {
      match answer
      case Stored => RunThree(c, s, EarlyCommit(k), Process(k, ok), Finish(k, Stored));
      case Refused => RunOne(c, s, Crash(k));
      case Swallowed => RunThree(c, s, CancelledCommit(k), Process(k, ok), Finish(k, Stored));
    }
  }
}
