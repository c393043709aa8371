/**
 * Two runs on which the scheduler loses a task (accepted, never settled, and nowhere any more),
 * and one on which a task waits until new work arrives.
 */
module SchedulerLosses {
  import opened Tasks
  import opened Queues
  import opened WorkerPool
  import opened SchedulerSpec
  import opened SchedulerInv
  import opened SchedulerRuns
  import opened SchedulerDrain
  import opened SchedulerLost

  /** One worker, room for everything. */
  const ONE := Config(10, 10, 10, 15000, 1, PerType(1, 1, 1), true, Stats(0, 0, 0), 0)

  function Ask(k: Workload): Request { Request(0, "job", 1, Some(k), false, false) }

  function Job(id: nat, k: Workload): Task { Task(id, 0, "job", 1, Some(k), false, 0) }

  const EMPTY := Room([], [], [], [])

  // ---------------------------------------------------------------- single steps, computed

  /** The only worker is handed the only waiting job. */
  lemma OfferOnly(p: Pool, x: Task, k: Workload)
    requires p.queue == [ItemFor(x)] && x.workload == Some(k) && k != Unknown
    requires p.busy == [false] && p.active.At(k) == 0
    ensures Dispatch(p, ONE.limits, {}) ==
            Sent(Pool([], [true], p.jobs[0 := ItemFor(x)], p.active.Put(k, 1), p.dropped, p.added, p.picked + [x]), [])
  {
    var w := ItemFor(x);
    assert HasRoom(w, p.active, ONE.limits);
    assert w.(kind := Some(k)) == w;
    assert p.queue[1..] == [];
    assert Dequeue(p.queue, p.active, ONE.limits) == Pick(Some(w), [], []);
    assert TasksOf([]) == [];
    var o := Offer(p, 0, ONE.limits, {});
    assert p.busy[0 := true] == [true];
    assert o == Sent(Pool([], [true], p.jobs[0 := w], p.active.Put(k, 1), p.dropped, p.added, p.picked + [x]), []);
    assert DispatchRange(o.pool, 1, 1, ONE.limits, {}) == Sent(o.pool, []);
  }

  lemma OfferBusy(p: Pool)
    requires p.busy == [true]
    ensures Dispatch(p, ONE.limits, {}) == Sent(p, [])
  {
    assert Offer(p, 0, ONE.limits, {}) == Sent(p, []);
    assert DispatchRange(p, 1, 1, ONE.limits, {}) == Sent(p, []);
  }

  lemma OnlyForWorkers(x: Task)
    requires Eligible(ONE, x)
    ensures ForWorkers(ONE, [x]) == [x] && ForInline(ONE, [x]) == []
  {
    assert [x][..0] == [];
    assert ForWorkers(ONE, []) == [] && ForInline(ONE, []) == [];
  }

  lemma ShiftOnly(pressure: bool, x: Task)
    ensures
      var r := EMPTY.(normal := [x]);
      && Offered(r, pressure) == [x]
      && Shifted(r, pressure, 1) == EMPTY
  {
    var r := EMPTY.(normal := [x]);
    assert Offered(r, pressure) == [x];
    assert [x][1..] == [] && r.high[0..] == [] && r.low[0..] == [];
  }

  /** The state after a waiting job took a slot and joined the worker queue. */
  function Joined(s: State, x: Task): State {
    s.(room := EMPTY, active := s.active + 1,
       pool := s.pool.(queue := s.pool.queue + [ItemFor(x)], added := s.pool.added + [x]))
  }

  lemma TakeOnly(s: State, x: Task)
    requires s.room == EMPTY.(normal := [x]) && Eligible(ONE, x)
    ensures Offered(s.room, s.pressure) == [x]
    ensures Take(ONE, s, 1) == Joined(s, x)
  {
    OnlyForWorkers(x);
    ShiftOnly(s.pressure, x);
    assert [x][..1] == [x];
    assert AddAll(s.pool, [x]).queue == s.pool.queue + [ItemFor(x)] by {
      assert ItemsFor([x]) == [ItemFor(x)];
    }
    assert s.inline + [] == s.inline;
  }

  lemma PassTakesOnly(s: State, x: Task)
    requires s.room == EMPTY.(normal := [x]) && Eligible(ONE, x)
    requires !s.processing && 0 <= s.active < 10
    ensures ProcessQueue(ONE, s, {}) == EndPass(ONE, Joined(s, x), true, {})
  {
    TakeOnly(s, x);
    OnlyForWorkers(x);
    assert [x][..1] == [x];
    assert PassSize(ONE, s) == 1;
  }

  lemma Arrive(s: State, k: Workload)
    requires s.room == EMPTY
    ensures Enqueue(ONE, s, Ask(k), 0) == Admit(s, Job(s.lastId + 1, k), EMPTY.(normal := [Job(s.lastId + 1, k)]))
  {
    assert Total(EMPTY) == 0;
    assert [] + [Job(s.lastId + 1, k)] == [Job(s.lastId + 1, k)];
  }

  /** The state after a job arrived and joined the worker queue. */
  function Arrived(s: State, k: Workload): State {
    var x := Job(s.lastId + 1, k);
    Joined(s.(lastId := s.lastId + 1, pending := false, log := s.log.(accepted := s.log.accepted + [x])), x)
  }

  /** A pass over the newly arrived job, and nothing else. */
  lemma PassAfterArrival(s: State, k: Workload)
    requires s.room == EMPTY && !s.processing && 0 <= s.active < 10 && k != Unknown
    ensures Step(ONE, Enqueue(ONE, s, Ask(k), 0), ProcessTick({})) == SendWork(ONE, Arrived(s, k), {})
  {
    var x := Job(s.lastId + 1, k);
    Arrive(s, k);
    var s1 := Admit(s, x, EMPTY.(normal := [x])).(pending := false);
    PassTakesOnly(s1, x);
    assert Joined(s1, x) == Arrived(s, k);
    SendKeepsRoom(Arrived(s, k));
    assert Total(EMPTY) == 0;
  }

  /** Enqueue and one pass. */
  lemma ArriveAndPass(s0: State, es: seq<Event>, s: State, k: Workload)
    requires s == Run(ONE, s0, es) && s.room == EMPTY && !s.processing && 0 <= s.active < 10 && k != Unknown
    ensures Run(ONE, s0, es + [EnqueueCall(Ask(k), 0)] + [ProcessTick({})]) == SendWork(ONE, Arrived(s, k), {})
  {
    RunOneMore(ONE, s0, es, EnqueueCall(Ask(k), 0));
    RunOneMore(ONE, s0, es + [EnqueueCall(Ask(k), 0)], ProcessTick({}));
    PassAfterArrival(s, k);
  }

  lemma SendKeepsRoom(s: State)
    ensures SendWork(ONE, s, {}).room == s.room
  {
  }

  /** A pool of one worker with an empty queue. */
  function Solo(busy: bool, jobs: map<nat, WorkItem>, active: PerType, added: seq<Task>, picked: seq<Task>): Pool {
    Pool([], [busy], jobs, active, 0, added, picked)
  }

  function After(last: nat, active: nat, pool: Pool, rejected: seq<Task>, accepted: seq<Task>, pending: bool): State {
    State(EMPTY, last, active, pending, false, false, [], [], [], pool, Stats(0, |rejected|, 0), 0,
          Log(accepted, [], rejected, []))
  }

  const A := Job(1, Cpu)
  const B := Job(2, Memory)

  /** The first job is on the worker. */
  const STARTED := After(1, 1, Solo(true, map[0 := ItemFor(A)], PerType(1, 0, 0), [A], [A]), [], [A], false)

  const START := [] + [EnqueueCall(Ask(Cpu), 0)] + [ProcessTick({})]

  lemma FirstJobStarts()
    ensures Run(ONE, Initial(ONE), START) == STARTED
  {
    var s0 := Initial(ONE);
    assert s0 == After(0, 0, Solo(false, map[], PerType(0, 0, 0), [], []), [], [], false);
    ArriveAndPass(s0, [], s0, Cpu);
    var s := Arrived(s0, Cpu);
    assert s.pool.queue == [ItemFor(A)];
    OfferOnly(s.pool, A, Cpu);
    assert PerType(0, 0, 0).Put(Cpu, 1) == PerType(1, 0, 0);
    assert SendWork(ONE, s, {}) == STARTED;
  }

  // ---------------------------------------------------------------- a late `initialized` message

  const READY := After(1, 1, Solo(false, map[0 := ItemFor(A)], PerType(1, 0, 0), [A], [A]), [], [A], false)

  const OVERWRITTEN :=
    After(2, 2, Solo(true, map[0 := ItemFor(B)], PerType(1, 1, 0), [A, B], [A, B]), [], [A, B], false)

  const LATE_READY := START + [ReadyMessage(0)] + [EnqueueCall(Ask(Memory), 0)] + [ProcessTick({})]

  lemma SecondJobOverwrites()
    ensures SendWork(ONE, Arrived(READY, Memory), {}) == OVERWRITTEN
  {
    var s := Arrived(READY, Memory);
    assert s.pool.queue == [ItemFor(B)];
    OfferOnly(s.pool, B, Memory);
    assert PerType(1, 0, 0).Put(Memory, 1) == PerType(1, 1, 0);
    assert s.pool.jobs[0 := ItemFor(B)] == map[0 := ItemFor(B)];
    assert [A] + [B] == [A, B];
  }

  lemma ReadyAgain()
    ensures WorkerReady(STARTED, 0) == READY
  {
    assert STARTED.pool.busy[0 := false] == [false];
  }

  lemma LateReadyRun(s0: State, es: seq<Event>)
    requires Run(ONE, s0, es) == STARTED
    ensures Run(ONE, s0, es + [ReadyMessage(0)] + [EnqueueCall(Ask(Memory), 0)] + [ProcessTick({})]) == OVERWRITTEN
  {
    RunOneMore(ONE, s0, es, ReadyMessage(0));
    ReadyAgain();
    ArriveAndPass(s0, es + [ReadyMessage(0)], READY, Memory);
    SecondJobOverwrites();
  }

  /** A pool whose only worker holds `b` does not hold `a`. */
  lemma NowhereIn(s: State, a: Task, b: Task)
    requires a != b && s.room == EMPTY && s.inline == [] && s.groups == []
    requires s.pool.queue == [] && |s.pool.busy| == 1 && s.pool.jobs == map[0 := ItemFor(b)]
    ensures PlacedTimes(s, a) == 0
  {
    assert TasksOf([]) == [];
    assert AssignedTimes(s.pool.jobs, 0, a) == 0;
    assert 0 in s.pool.jobs && s.pool.jobs[0].task == b;
    assert AssignedTimes(s.pool.jobs, 1, a) == 0;
    assert PoolTimes(s.pool, a) == 0;
    assert RoomTimes(EMPTY, a) == 0;
  }

  /** Being out of every place once is being lost for good. */
  lemma LostFromHere(s: State, t: Task)
    requires Lost(s, t)
    ensures forall es :: Lost(Run(ONE, s, es), t)
  {
    forall es ensures Lost(Run(ONE, s, es), t) { LostForGood(ONE, s, es, t); }
  }

  /**
   * An `initialized` message that arrives after the first dispatch: the next job overwrites the assignment.
   * The first one is still counted as active, and is never settled, whatever follows.
   */
  lemma LateReadyLosesTask()
    ensures
      var s := Run(ONE, Initial(ONE), LATE_READY);
      && A in s.log.accepted && PlacedTimes(s, A) == 0 && SettledTimes(s.log, A) == 0 && s.active == 2
      && forall es :: Lost(Run(ONE, s, es), A)
  {
    FirstJobStarts();
    LateReadyRun(Initial(ONE), START);
    NowhereIn(OVERWRITTEN, A, B);
    LostFromHere(OVERWRITTEN, A);
  }

  // ---------------------------------------------------------------- a failure with work waiting

  const C := Job(3, Custom)

  /** The first job runs and the second one waits for the worker. */
  const WAITING :=
    After(2, 2, Pool([ItemFor(B)], [true], map[0 := ItemFor(A)], PerType(1, 0, 0), 0, [A, B], [A]), [], [A, B], false)

  /** The worker died: the first job is rejected, the second is booked on the dead worker. */
  const BOOKED :=
    After(2, 1, Solo(false, map[0 := ItemFor(B)], PerType(0, 1, 0), [A, B], [A, B]), [A], [A, B], true)

  const GONE :=
    After(3, 2, Solo(true, map[0 := ItemFor(C)], PerType(0, 1, 1), [A, B, C], [A, B, C]), [A], [A, B, C], false)

  const WORKER_DIES :=
    START + [EnqueueCall(Ask(Memory), 0)] + [ProcessTick({})] + [Failure(0, {})]
    + [EnqueueCall(Ask(Custom), 0)] + [ProcessTick({})]

  lemma SecondJobWaits()
    ensures SendWork(ONE, Arrived(STARTED, Memory), {}) == WAITING
  {
    var s := Arrived(STARTED, Memory);
    assert s.pool.queue == [ItemFor(B)];
    OfferBusy(s.pool);
    assert [A] + [B] == [A, B];
  }

  lemma FailureBooks()
    ensures WorkerFailure(ONE, WAITING, 0, {}) == BOOKED
  {
    var s := Settle(WAITING, 0, false);
    assert WAITING.pool.busy[0 := false] == [false];
    assert WAITING.pool.jobs - {0} == map[];
    assert PerType(1, 0, 0).Put(Cpu, 0) == PerType(0, 0, 0);
    assert s == After(2, 1, Pool([ItemFor(B)], [false], map[], PerType(0, 0, 0), 0, [A, B], [A]), [A], [A, B], true);
    OfferOnly(s.pool, B, Memory);
    assert PerType(0, 0, 0).Put(Memory, 1) == PerType(0, 1, 0);
    assert [A] + [B] == [A, B];
    var t := SendWork(ONE, s, {});
    assert t.pool.busy[0 := false] == [false];
  }

  lemma ThirdJobOverwrites()
    ensures SendWork(ONE, Arrived(BOOKED, Custom), {}) == GONE
  {
    var s := Arrived(BOOKED, Custom);
    assert s.pool.queue == [ItemFor(C)];
    OfferOnly(s.pool, C, Custom);
    assert PerType(0, 1, 0).Put(Custom, 1) == PerType(0, 1, 1);
    assert s.pool.jobs[0 := ItemFor(C)] == map[0 := ItemFor(C)];
    assert [A, B] + [C] == [A, B, C];
  }

  lemma WorkerDiesRun(s0: State, es: seq<Event>)
    requires Run(ONE, s0, es) == STARTED
    ensures Run(ONE, s0, es + [EnqueueCall(Ask(Memory), 0)] + [ProcessTick({})] + [Failure(0, {})]
                         + [EnqueueCall(Ask(Custom), 0)] + [ProcessTick({})]) == GONE
  {
    ArriveAndPass(s0, es, STARTED, Memory);
    SecondJobWaits();
    DiesAfterWaiting(s0, es + [EnqueueCall(Ask(Memory), 0)] + [ProcessTick({})]);
  }

  lemma DiesAfterWaiting(s0: State, es: seq<Event>)
    requires Run(ONE, s0, es) == WAITING
    ensures Run(ONE, s0, es + [Failure(0, {})] + [EnqueueCall(Ask(Custom), 0)] + [ProcessTick({})]) == GONE
  {
    RunOneMore(ONE, s0, es, Failure(0, {}));
    FailureBooks();
    ArriveAndPass(s0, es + [Failure(0, {})], BOOKED, Custom);
    ThirdJobOverwrites();
  }

  /**
   * A worker dies while another job waits: the waiting job is booked on the dead worker, then overwritten,
   * and never settled, whatever follows.
   */
  lemma WorkerFailureLosesTask()
    ensures
      var s := Run(ONE, Initial(ONE), WORKER_DIES);
      && B in s.log.accepted && PlacedTimes(s, B) == 0 && SettledTimes(s.log, B) == 0 && s.active == 2
      && forall es :: Lost(Run(ONE, s, es), B)
  {
    FirstJobStarts();
    WorkerDiesRun(Initial(ONE), START);
    NowhereIn(GONE, B, C);
    TimesOne(A, B);
    LostFromHere(GONE, B);
  }

  // ---------------------------------------------------------------- a send that fails with more work waiting

  /** The first job runs, the other two wait for the worker. */
  const CROWDED :=
    After(3, 3, Pool([ItemFor(B), ItemFor(C)], [true], map[0 := ItemFor(A)], PerType(1, 0, 0), 0, [A, B, C], [A]),
          [], [A, B, C], false)

  const STRANDING :=
    START + [EnqueueCall(Ask(Memory), 0)] + [ProcessTick({})] + [EnqueueCall(Ask(Custom), 0)] + [ProcessTick({})]
    + [ResultMessage(0, true, {0})]

  lemma ThirdJobWaits()
    ensures SendWork(ONE, Arrived(WAITING, Custom), {}) == CROWDED
  {
    var s := Arrived(WAITING, Custom);
    assert s.pool.queue == [ItemFor(B), ItemFor(C)];
    OfferBusy(s.pool);
    assert [A, B] + [C] == [A, B, C];
  }

  /** The only worker cannot be sent the first of two waiting jobs. */
  lemma OfferFails(p: Pool, x: Task, y: Task, k: Workload)
    requires p.queue == [ItemFor(x), ItemFor(y)] && x.workload == Some(k) && k != Unknown
    requires p.busy == [false] && p.active.At(k) == 0 && p.jobs == map[]
    ensures Dispatch(p, ONE.limits, {0}) == Sent(p.(queue := [ItemFor(y)], picked := p.picked + [x]), [x])
  {
    var w := ItemFor(x);
    assert HasRoom(w, p.active, ONE.limits) && w.(kind := Some(k)) == w;
    assert p.queue[1..] == [ItemFor(y)];
    assert Dequeue(p.queue, p.active, ONE.limits) == Pick(Some(w), [ItemFor(y)], []);
    assert TasksOf([]) == [] && p.jobs - {0} == p.jobs;
    var o := Offer(p, 0, ONE.limits, {0});
    assert o == Sent(p.(queue := [ItemFor(y)], picked := p.picked + [x]), [x]);
    assert DispatchRange(o.pool, 1, 1, ONE.limits, {0}) == Sent(o.pool, []);
  }

  lemma SendFails(s: State)
    requires s == WorkerResult(ONE, CROWDED, 0, true, {0})
    ensures s.pool.queue == [ItemFor(C)] && s.pool.jobs == map[] && s.room == EMPTY && s.active == 1
    ensures s.log == Log([A, B, C], [A], [B], [])
  {
    var s1 := Settle(CROWDED, 0, true);
    assert CROWDED.pool.jobs - {0} == map[];
    assert PerType(1, 0, 0).Put(Cpu, 0) == PerType(0, 0, 0);
    assert s1.pool == Pool([ItemFor(B), ItemFor(C)], [false], map[], PerType(0, 0, 0), 0, [A, B, C], [A]);
    OfferFails(s1.pool, B, C, Memory);
    assert [] + [A] == [A] && [] + [B] == [B];
  }

  lemma StrandingRun(s0: State, es: seq<Event>)
    requires Run(ONE, s0, es) == STARTED
    ensures Run(ONE, s0, es + [EnqueueCall(Ask(Memory), 0)] + [ProcessTick({})] + [EnqueueCall(Ask(Custom), 0)]
                         + [ProcessTick({})] + [ResultMessage(0, true, {0})])
            == WorkerResult(ONE, CROWDED, 0, true, {0})
  {
    ArriveAndPass(s0, es, STARTED, Memory);
    SecondJobWaits();
    AnsweredCrowded(s0, es + [EnqueueCall(Ask(Memory), 0)] + [ProcessTick({})]);
  }

  lemma AnsweredCrowded(s0: State, es: seq<Event>)
    requires Run(ONE, s0, es) == WAITING
    ensures Run(ONE, s0, es + [EnqueueCall(Ask(Custom), 0)] + [ProcessTick({})] + [ResultMessage(0, true, {0})])
            == WorkerResult(ONE, CROWDED, 0, true, {0})
  {
    var es1 := es + [EnqueueCall(Ask(Custom), 0)] + [ProcessTick({})];
    assert Run(ONE, s0, es1) == CROWDED by {
      ArriveAndPass(s0, es, WAITING, Custom);
      ThirdJobWaits();
    }
    RunOneMore(ONE, s0, es1, ResultMessage(0, true, {0}));
    ResultIsResult(CROWDED);
  }

  lemma ResultIsResult(s: State)
    ensures Step(ONE, s, ResultMessage(0, true, {0})) == WorkerResult(ONE, s, 0, true, {0})
  {
  }

  lemma StrandingHarmless()
    ensures HarmlessRun(ONE, STRANDING)
  {
    assert forall n :: 0 <= n < |STRANDING| ==> !STRANDING[n].ReadyMessage? && !STRANDING[n].Failure?;
  }

  lemma NotSettled(l: Log)
    requires l == Log([A, B, C], [A], [B], [])
    ensures SettledTimes(l, C) == 0
  {
    TimesOne(A, C);
    TimesOne(B, C);
  }

  /**
   * One failed send with another job waiting, on a run that is harmless throughout: the job stays in the worker
   * queue with its slot, and no continuation without new work ever settles it.
   */
  lemma SendFailureStrands()
    ensures
      var s := Run(ONE, Initial(ONE), STRANDING);
      && HarmlessRun(ONE, STRANDING)
      && C in s.log.accepted && SettledTimes(s.log, C) == 0 && Total(s.room) == 0
      && Stuck(ONE, s) && !CanDrain(ONE, s)
  {
    var s := Run(ONE, Initial(ONE), STRANDING);
    FirstJobStarts();
    StrandingRun(Initial(ONE), START);
    SendFails(s);
    NotSettled(s.log);
    StrandingHarmless();
    OneValid();
    RunKeeps(ONE, STRANDING);
    assert Stuck(ONE, s);
    DrainsExactly(ONE, s);
  }

  lemma OneValid()
    ensures ValidConfig(ONE)
  {
  }
}
