# Verified model of the queue scheduler, the order consumers and the Go engine

The repository runs requests through an in-process priority scheduler with worker threads and batches,
publishes order events through Kafka (or through an in-memory dispatcher), and offers a Go engine with its own
pool. This project models the parts whose correctness spans many functions and proves what they promise for
every input, every run and every reachable state.

| files | what they model |
|---|---|
| `Tasks`, `Queues`, `WorkerPool` | the waiting room (three priority queues and the batch map) and the worker pool with its type router |
| `SchedulerSpec` | the whole scheduler as one state and one function per event; every event runs to completion |
| `SchedulerInv`, `SchedulerRuns` | the invariant and the whole-run theorems |
| `SchedulerEffects`, `SchedulerSweep` | what each event does, in the caller's terms: requests, routes, outcomes, timers, ages, sweeps |
| `SchedulerDrain` | what is left to do never grows without new work, and when everything accepted can still be settled |
| `SchedulerLost`, `SchedulerLosses` | a task that is nowhere stays nowhere; three runs on which a task is lost or stranded |
| `Scheduler` | the scheduler as an object with mutable fields; `Service.Handle` moves exactly as the state machine does |
| `CommitProtocol`, `CommitCoverage`, `CommitTheorems`, `CommitFailures`, `CommitRecords`, `OrderConsumer` | any number of partitions and consumer instances, both commit modes, crashes anywhere |
| `OrderStats`, `KafkaInspector` | duplicate counts in the event table; lag and offset reset |
| `PriorityQueue`, `GoPool`, `Retry`, `PrimeSieve`, `Percentiles` | algorithms of the Go engine and their TypeScript and JavaScript twins |
| `MemoryDispatcher` | the single-drainer in-memory order queue |
| `Insertion`, `Subsequences` | insertion into an ordered sequence, shared by the sorts; subsequences by index |

## What the proofs show

*Scheduler.* `SchedulerInv.Inv` says at once: each accepted task is in exactly one place or settled exactly once;
`activeRequests` is the number of slots in use; the statistics balance; `workerBusy` and `activeByType` agree with the
assignments; items of one type are sent in arrival order; each queue and batch holds its own class in arrival order;
batches know their size; and no wake-up is lost. `SchedulerRuns.StepKeepsExactly` proves, from every good state and for
all fourteen events, that the next state is good *if and only if* the event is harmless. Two events can do harm, and for both
there is a run on which an accepted task is then in no place and unsettled. `SchedulerLost.LostForGood` shows, for every state and
every continuation, that such a task stays lost:

- an `initialized` message that arrives after the worker already got a task (`SchedulerLosses.LateReadyLosesTask`);
- a worker failure whose callback dispatches new work to the very worker that failed
  (`SchedulerLosses.WorkerFailureLosesTask`). `SchedulerRuns.FailureHarmExactly` gives the condition in plain terms, for every
  good state: counting per type the smaller of waiting items and free slots once the failed task gave its slot back, more items
  can be sent than there are idle workers with a lower number. Where sends to some of those workers fail, that count gives
  a lower and an upper bound.

`SchedulerEffects` and `SchedulerSweep` say what the events do without the functions the specification is built from: an accepted
task is what was asked for and waits where its priority and category put it; worker threads get exactly the tasks of a known type;
every caller is told the outcome of its own task, for the first time; exactly the tasks older than one and a half timeouts
are cleaned; and a sweep by keys is one pass over the map.

A third weakness is not a loss but a stall. A worker whose send failed is not tried again in that pass, and a later pass dispatches
only if it brings a worker task itself, so waiting worker tasks can be left with no worker holding one. `SchedulerDrain.DrainsExactly`
proves that from a good state some continuation without new work settles every accepted task *if and only if* the scheduler is not
stuck: worker tasks wait, no worker holds one, and either no queued task would go to the workers or the waiting ones hold every slot.
Every continuation has only boundedly many events that do anything (`SchedulerDrain.ContinuationBounded`), and a scheduler in which
none is left, without memory pressure, is drained or stuck (`SchedulerDrain.HaltsDrainedOrStuck`). On runs whose sends succeed the scheduler is never stuck;
`SchedulerLosses.SendFailureStrands` is a run on which one failed send strands a task until new work arrives.

*Commit protocol.* The Go consumer's commit reports success when its context is cancelled, in both modes, although nothing was
stored. `CommitProtocol.StepKeepsExactly` shows that such a swallowed commit is exactly what breaks the protocol. Without one,
after-process attempts repeat or advance by one and before-process attempts strictly increase. Wherever one happens, some
continuation breaks the promise: a before-process message is attempted twice (`CommitFailures.CancelledCommitRepeats`), or
after-process attempts fall back behind a message already attempted (`CommitFailures.SwallowedCommitFallsBack`). What holds on every
after-process run, swallowed commits included, is that no offset is skipped and everything below the commit was attempted
(`CommitTheorems.AtLeastOnce`).

*Go engine.* A negative `MaxRetries` makes the retry loop return neither a result nor an error without calling the handler, and a
delay below two units makes the jitter draw panic (`Retry.Execute` says exactly when). The two `findPrimes` versions agree
for every bound except zero, which the JavaScript version reads as its default.

Terms used below: a *good* state satisfies `Inv`; a *harmless* run has only harmless events; the *line* is
high ++ normal ++ low, without low under memory pressure.

## Model

| member | source | states |
|---|---|---|
| Queues.PlaceKeeps | src/queue/queue.service.ts:129-144 | a fresh task goes where its class, arrival order, batch key and batch size sum stay right |
| Queues.PlaceTimes | src/queue/queue.service.ts:111-144 | exactly one place gains exactly one occurrence, whichever of the four it is |
| Queues.AddToBatchKeeps | src/queue/batch.service.ts:24-42 | joining or opening a batch keeps batches non-empty, keyed by category, of one category below priority 5, with the right total size |
| Queues.RemoveKeeps | src/queue/queue-state.holder.ts:61-85 | removing one task keeps every queue and batch well formed; an emptied batch disappears, and no other |
| Queues.RemoveTimes | src/queue/queue-state.holder.ts:61-85 | the removed task leaves exactly the one place it was in |
| Queues.EmptiedDelete | src/queue/queue-state.holder.ts:76-78 | deleting an emptied batch under its category removes that entry and no other |
| Queues.ShiftedRest | src/queue/queue-processor.service.ts:55-91 | after taking k tasks the line is the old line without its first k tasks |
| Queues.ShiftedTimes | src/queue/queue-processor.service.ts:55-91 | what leaves the room is exactly the first k tasks of the line |
| Queues.ShiftedKeeps | src/queue/queue-processor.service.ts:55-91 | taking tasks keeps class and arrival order in every queue |
| Queues.TakeFromBatchKeeps | src/queue/batch.service.ts:86-101 | dispatching part of a batch keeps the rest well formed, with the right total size |
| Queues.TakeFromBatchTimes | src/queue/batch.service.ts:86-101 | exactly the dispatched tasks leave the map |
| Queues.YoungKeeps | src/queue/memory.service.ts:97-106 | survivors of the age cleanup keep class and order, and none of them is too old |
| Queues.CleanedTimes | src/queue/memory.service.ts:88-123 | what the age cleanup takes out of queues and batches is exactly what it rejects |
| Queues.CleanedKeeps | src/queue/memory.service.ts:88-123 | the age cleanup keeps every queue and batch well formed |
| Queues.ReducedTimes | src/queue/memory.service.ts:63-72 | the popped half is exactly what is rejected |
| Queues.ReducedKeeps | src/queue/memory.service.ts:63-72 | the older half stays in order |
| WorkerPool.DequeueFirst | src/queue/worker-task-router.service.ts:118-149 | the pick is the first item whose type is below its limit; only it leaves, nothing is dropped |
| WorkerPool.PickKeepsTypeOrder | src/queue/worker-task-router.service.ts:124-146 | skipping saturated types never reorders items of one type |
| WorkerPool.OfferKeeps | src/queue/worker-pool.service.ts:125-159 | one worker's turn keeps busy flags, assignments, counters, limits and per-type order in agreement |
| WorkerPool.LoopRule | src/queue/worker-pool.service.ts:125-159 | what holds before the first turn of the worker loop and is carried on by each turn holds after the last one |
| WorkerPool.DispatchKeeps | src/queue/worker-pool.service.ts:122-160 | so does a whole dispatch pass, whichever sends fail |
| WorkerPool.DispatchTimes | src/queue/worker-pool.service.ts:122-160 | a dispatch pass loses no task: what leaves the pool is what it reports as failed |
| WorkerPool.AddAllKeeps | src/queue/worker-pool.service.ts:118-120 | adding eligible tasks keeps the pool well formed and adds exactly that many |
| WorkerPool.ReleaseKeeps | src/queue/worker-pool.service.ts:168-173 | a result frees the worker and gives its type one slot back, and does nothing for a worker without a task |
| WorkerPool.DispatchSaturates | src/queue/worker-pool.service.ts:122-160 | after a pass without send failures no idle worker coexists with an item that may run |
| SchedulerSpec.ClampLimit | src/queue/worker-task-router.service.ts:175-177 | a limit between 1 and the worker count is kept, a larger one becomes the worker count and a smaller one 1 |
| SchedulerSpec.ClampedConfig | src/queue/worker-task-router.service.ts:16-31 | whatever limits are configured, the clamped ones make a valid configuration, and those in range are kept |
| SchedulerEffects.StartsIdle | src/queue/queue.service.ts:57-66 | a started scheduler is empty and idle, with the restored statistics and id counter |
| SchedulerEffects.EnqueueRefuses | src/queue/queue.service.ts:90-108 | a bad option changes nothing; under pressure with a negative priority, or with the room full, only the refusal is counted |
| SchedulerEffects.EnqueueAccepts | src/queue/queue.service.ts:110-147 | otherwise a task with exactly the requested fields, the next id and the current time is accepted and waits last in the batch of its category or in the queue of its priority; nothing else changes but the wake-up |
| SchedulerEffects.PassRoutes | src/queue/queue-processor.service.ts:55-88 | of the tasks a pass takes, those of a known type with a non-negative priority join the worker queue if workers are enabled and the others run inline, each as a subsequence in line order |
| SchedulerEffects.PassWakes | src/queue/queue-processor.service.ts:23-36 | a pass starts only when asked for and with a slot free, takes one slot per task, and asks for another pass exactly if a task and a slot are left |
| SchedulerEffects.ItemType | src/queue/worker-task-router.service.ts:61-69 | an item is counted under its task's type, else as custom if it carries code, else as unknown |
| SchedulerEffects.InlineTold | src/queue/queue-processor.service.ts:71-83 | an inline task's caller is told its outcome, for the first time, and the statistic of that outcome goes up by one |
| SchedulerEffects.InlineReleases | src/queue/queue-processor.service.ts:84-87 | the later callback gives one slot back and asks for a pass |
| SchedulerEffects.GroupTold | src/queue/batch.service.ts:105-119 | a batched task's caller is told its outcome, for the first time; its group counts it and the statistics wait |
| SchedulerEffects.GroupBooks | src/queue/queue-processor.service.ts:116-129 | a finished group adds its successes and failures to the statistics, gives its slots back and asks for a pass |
| SchedulerEffects.GroupLastTold | src/queue/batch.service.ts:103-124 | when the last task settles and the group finishes, the statistics gain every outcome of the group |
| SchedulerEffects.TimerTells | src/queue/queue-processor.service.ts:190-196 | a queue timer rejects and counts its task as timed out, and takes it and nothing else out of the room, exactly if it still waits |
| SchedulerEffects.FailureTells | src/queue/worker-pool.service.ts:253-288 | a worker failure rejects the task that worker was sent, and otherwise only what the follow-up dispatch cannot send |
| SchedulerEffects.IntervalAsks | src/queue/queue.service.ts:183-187 | the periodic tick asks for a pass exactly if something waits |
| SchedulerEffects.IdleMeansAtLimit | src/queue/worker-task-router.service.ts:104-106 | on clean runs an item waits beside an idle worker only if as many tasks of its type are assigned as its limit allows |
| SchedulerSweep.BatchStartsExactly | src/queue/batch.service.ts:66-125 | a start does nothing without the batch or a free slot; otherwise the first tasks, as many as slots are free, become a group, and the rest stays with its size and the current time |
| SchedulerSweep.SweepsOnce | src/queue/batch.service.ts:53-64 | the sweep by keys over the changing map equals one pass in which each due batch starts with the slots the ones before it left |
| SchedulerSweep.AgingSweeps | src/queue/batch.service.ts:53-64 | the aging timer starts the batches at least 1500 ms old in this way |
| SchedulerSweep.SweepTakes | src/queue/memory.service.ts:79-83 | a sweep takes the tasks of the due batches in map order, as many as slots are free |
| SchedulerSweep.CleansByAge | src/queue/memory.service.ts:88-123 | each queue keeps, in order, exactly the tasks waiting at most 1.5 timeouts, batches stay or go as a whole by the same rule, and all others are timed out |
| SchedulerSweep.MemoryRelaxed | src/queue/memory.service.ts:33-54 | up to 0.75 of the heap nothing is cleaned, pressure ends, and waiting low tasks get a pass |
| SchedulerSweep.MemoryPressed | src/queue/memory.service.ts:45-54 | above 0.75 there is pressure and a cleanup by age, and no more up to 0.9 or without the collector |
| SchedulerSweep.MemoryForced | src/queue/memory.service.ts:48-86 | above 0.9 the newer half of the low queue is then rejected from the back, and one pass starts the batches heavier than 50 |
| SchedulerInv.InitialInv | src/queue/queue.service.ts:57-66 | the state after start-up is good |
| SchedulerInv.EnqueueKeeps | src/queue/queue.service.ts:90-148 | admission, refusal and placement keep the invariant |
| SchedulerInv.TakeKeeps | src/queue/queue-processor.service.ts:55-91 | taking tasks in a pass conserves tasks and slots |
| SchedulerInv.SendWorkKeeps | src/queue/worker-pool.service.ts:122-160 | dispatching with its failure callback conserves tasks, slots, statistics and the wake-up |
| SchedulerInv.ProcessQueueKeeps | src/queue/queue-processor.service.ts:33-108 | a pass ends in a good state even if the wake-up flag was just cleared |
| SchedulerInv.InlineSettleKeeps | src/queue/queue-processor.service.ts:71-83 | settling an inline task keeps the invariant |
| SchedulerInv.InlineReleaseKeeps | src/queue/queue-processor.service.ts:84-87 | so does the later release of its slot |
| SchedulerInv.StartBatchKeeps | src/queue/batch.service.ts:66-125 | so does starting a batch, in full or in part |
| SchedulerInv.GroupSettleKeeps | src/queue/batch.service.ts:105-119 | so does settling one task of an open group |
| SchedulerInv.GroupFinishKeeps | src/queue/queue-processor.service.ts:116-129 | so does closing a group, which books its counts and gives all its slots back |
| SchedulerInv.StartFiringKeeps | src/queue/batch.service.ts:53-64 | so does any sweep that starts several batches |
| SchedulerInv.QueueTimeoutKeeps | src/queue/queue-processor.service.ts:190-196 | so does a queue timer |
| SchedulerInv.MemoryCheckKeeps | src/queue/queue.service.ts:198-230 | so does the memory check with cleanup and forced reduction |
| SchedulerInv.WorkerResultKeeps | src/queue/queue-processor.service.ts:133-157 | so does a worker result with the dispatch that follows |
| SchedulerRuns.WhoGetsWork | src/queue/worker-pool.service.ts:122-160 | an idle worker gets a task in a pass exactly if one that may run is left when its turn comes |
| SchedulerRuns.FailureKeepsExactly | src/queue/worker-pool.service.ts:253-288 | a worker failure keeps the invariant exactly if the failing worker gets no new task on the way |
| SchedulerRuns.StepKeepsExactly | src/queue/queue-processor.service.ts:23-216 | from a good state, each of the fourteen events leads to a good state exactly if it is harmless |
| SchedulerRuns.RunKeeps | src/queue/queue.service.ts:57-241 | every state of every harmless run is good |
| SchedulerRuns.RunPromises | src/queue/queue-processor.service.ts:33-157 | on every harmless run: one place per task, activeRequests is the slots in use and within its bound, no lost wake-up, busy exactly if assigned, per-type counters exact and within limits, nothing dropped as unknown |
| SchedulerRuns.ExactlyOnePlace | src/queue/queue-processor.service.ts:71-216 | an accepted task is in exactly one place or settled exactly once; anything else is nowhere |
| SchedulerRuns.PassTakesPrefix | src/queue/queue-processor.service.ts:42-91 | a pass takes min(concurrentTasks, free slots, waiting) tasks from the front of the line, in order, and leaves batches, and under pressure the low queue, alone |
| SchedulerRuns.ResultSettles | src/queue/queue-processor.service.ts:133-157 | whichever follow-up sends fail, a result settles the task sent to that worker, for the first time; the only other settlements are the rejections of what could not be sent |
| SchedulerRuns.Bounds | src/queue/queue-stats.service.ts:15-28 | the statistics balance against refusals and settlements; waiting and unsettled tasks stay within their bounds |
| SchedulerRuns.ClampsIdle | src/queue/queue-state.holder.ts:57-59 | no lower clamp ever changes a value, also in the middle of a pass: slots, per-type counters and batch sizes always suffice |
| SchedulerRuns.RunConserving | src/queue/worker-pool.service.ts:122-160 | on harmless runs without send failures an idle worker and a waiting item coexist only if the item's type is at its limit |
| SchedulerRuns.FailureHarmExactly | src/queue/worker-pool.service.ts:259-287 | a failure does harm if the worker itself can be sent work and more items can be sent, once the slot is back, than there are idle workers with a lower number, and only if they outnumber those of them whose sends succeed; exact if none of these sends fails |
| SchedulerRuns.LeftFor | src/queue/worker-pool.service.ts:122-160 | when a worker's turn comes, something that may run is left if the sendable items outnumber the idle workers before it, and only if they outnumber those of them whose sends succeed |
| SchedulerDrain.DrainsExactly | src/queue/queue-processor.service.ts:93-107 | from a good state some continuation without new work, in which only the timers start batches, frees every slot and empties the room exactly if the scheduler is not stuck |
| SchedulerDrain.DrainedSettled | src/queue/queue-processor.service.ts:71-216 | once the room is empty and no slot is in use, every accepted task was settled once |
| SchedulerDrain.StuckNeverDrains | src/queue/queue-processor.service.ts:93-97 | whatever happens without new work, a stuck scheduler stays stuck |
| SchedulerDrain.Progresses | src/queue/queue-processor.service.ts:23-157 | unless drained or stuck, some unprompted event other than a scheduled batch start leaves less to do and does not get the scheduler stuck |
| SchedulerDrain.FirstBatchAges | src/queue/batch.service.ts:53-64 | with a free slot the aging timer starts the first batch once it is old enough, and the whole sweep leaves less to do |
| SchedulerDrain.StepLowers | src/queue/queue-processor.service.ts:23-216 | every unprompted event, whichever sends fail, leaves less to do or changes nothing but the wake-up and pressure flags |
| SchedulerDrain.ContinuationBounded | src/queue/queue-processor.service.ts:23-216 | a continuation without new work has at most as many effective events as there was work left |
| SchedulerDrain.HaltsDrainedOrStuck | src/queue/queue-processor.service.ts:93-107 | without memory pressure a scheduler in which nothing acts any more is drained or stuck |
| SchedulerDrain.RunsDrain | src/queue/worker-pool.service.ts:122-160 | after every harmless run whose sends succeed, everything accepted can still be settled |
| SchedulerLost.LostStays | src/queue/queue-processor.service.ts:23-216 | in every state, good or not, and for each of the fourteen events: a task that is nowhere and unsettled stays so |
| SchedulerLost.LostForGood | src/queue/queue-processor.service.ts:23-216 | so it does on every continuation |
| SchedulerLosses.LateReadyLosesTask | src/queue/worker-pool.service.ts:224-228 | a concrete run: a late `initialized` message makes an accepted task vanish, still counted as active, and no continuation settles it |
| SchedulerLosses.WorkerFailureLosesTask | src/queue/worker-pool.service.ts:253-288 | a concrete run: a worker failure makes a waiting task vanish, still counted as active, and no continuation settles it |
| SchedulerLosses.SendFailureStrands | src/queue/worker-pool.service.ts:137-158 | a concrete harmless run: after one failed send a task keeps waiting, with its slot, on every continuation without new work |
| Scheduler.Service.Handle | src/queue/queue.service.ts:57-241 | whatever the event, the object's fields move as the state machine does |
| Scheduler.Service.ProcessQueueNow | src/queue/queue-processor.service.ts:33-108 | the nested loops, the flags and the finally block amount to taking a prefix, dispatching and asking for another pass |
| Scheduler.Service.TakeTasks | src/queue/queue-processor.service.ts:55-91 | the nested shift loops take a prefix of the line and report whether any of it went to the workers |
| Scheduler.Service.ProcessWorkerTasks | src/queue/worker-pool.service.ts:122-160 | the loop over workers, with its early exit, equals the dispatch of the specification |
| Scheduler.Service.SearchQueue | src/queue/worker-task-router.service.ts:124-148 | the splicing search loop equals the recursive dequeue |
| Scheduler.Service.ProcessFiring | src/queue/batch.service.ts:53-64 | the sweep over the map starts the batches that are due, in order |
| Scheduler.Service.RemoveTaskFromQueues | src/queue/queue-state.holder.ts:61-85 | found exactly if it waits, and removed from the first place that holds it |
| Scheduler.Service.CleanupQueue | src/queue/memory.service.ts:97-106 | the backward splice loop keeps the young tasks and rejects the old ones from the back |
| Scheduler.Service.CleanupBatches | src/queue/memory.service.ts:112-120 | old batches go as a whole |
| Scheduler.Service.PopTasks | src/queue/memory.service.ts:66-72 | the pop loop keeps the older tasks and rejects the others, newest first |
| Scheduler.Service.GetBatchTaskCount | src/queue/queue-state.holder.ts:40-46 | the number of tasks waiting in batches |
| CommitProtocol.StepKeepsExactly | go-engine/internal/consumer/consumer.go:104-173 | in both modes every step keeps the protocol's invariant, except exactly a commit that stored nothing and is taken for done, before or after processing |
| CommitProtocol.RunKeeps | src/orders/consumer/order-consumer.ts:203-258 | every state of every orderly run satisfies the invariant |
| CommitProtocol.CancelledCommitExactly | go-engine/internal/consumer/consumer.go:105-110 | before-process: a cancelled commit keeps the invariant exactly if there was no fetched message to commit |
| CommitProtocol.FinishExactly | go-engine/internal/consumer/consumer.go:122-127 | the end of a message keeps the invariant exactly if it is not an after-process commit that was swallowed |
| CommitProtocol.LoseKeeps | src/orders/consumer/order-consumer.ts:240-250 | losing an instance at any point keeps the invariant, whose books allow one repetition or one loss per lost instance |
| CommitTheorems.AtLeastOnce | src/orders/consumer/order-consumer.ts:252-257 | after-process: on every run everything below the commit was attempted and no offset is skipped; without swallowed commits each attempt repeats the previous offset or moves on by one |
| CommitCoverage.StepCovers | src/orders/consumer/order-consumer.ts:203-258 | after-process: every step keeps what was attempted ahead of the commit and the position, swallowed commits included |
| CommitCoverage.RunCovers | src/orders/consumer/order-consumer.ts:203-258 | so does every run |
| CommitTheorems.AtMostOnce | src/orders/consumer/order-consumer.ts:206-209 | before-process: attempted offsets strictly increase; what was committed and not attempted is in flight or one of at most as many losses as crashes |
| CommitTheorems.DuplicatesBounded | src/orders/order.service.ts:283-295 | with each event once in the log, duplicateExtra is at most the number of crashes (after-process) or zero (before-process) |
| CommitRecords.ProcessRecords | src/orders/consumer/order-consumer.ts:217-286 | an attempt leaves one row and counts as processed exactly if processing does not throw |
| CommitRecords.RowsCounted | src/orders/consumer/order-consumer.ts:276-285 | on every run the table holds one row per successful processing |
| CommitRecords.AllRecorded | src/orders/consumer/order-consumer.ts:219-286 | if no processing throws, every attempted offset of every partition is in the table |
| CommitRecords.CommittedIsRecorded | src/orders/consumer/order-consumer.ts:252-286 | in after-process mode everything below the commit is then in the table |
| CommitRecords.FinishDoes | src/orders/consumer/order-consumer.ts:240-258 | at the crash point, or if the late commit throws, the instance is gone and no commit changes; otherwise it moves on, with the next offset stored by a late commit that was not swallowed |
| CommitRecords.EarlyCommitDoes | src/orders/consumer/order-consumer.ts:206-209 | the early commit stores the next offset, a swallowed one stores nothing, and both lead to processing |
| CommitRecords.AssignDoes | src/orders/consumer/order-consumer.ts:323-331 | a new owner starts at the commit, and without one at the oldest or newest offset as configured |
| CommitRecords.RevokeDoes | src/orders/consumer/order-consumer.ts:203-258 | a partition is taken from its owner only while none of its messages is being handled |
| CommitFailures.CancelledCommitRepeats | go-engine/internal/consumer/consumer.go:104-110 | from every good state, a swallowed early commit has a continuation that attempts that message twice |
| CommitFailures.RestRepeats | go-engine/internal/consumer/consumer.go:104-110 | every before-process group at rest with a message to read can reach the attempts o, o |
| CommitFailures.SwallowedCommitFallsBack | go-engine/internal/consumer/consumer.go:122-127 | from every good state, a swallowed commit after processing offset o has a continuation whose attempts end in o, o + 1, o |
| CommitFailures.RestFallsBack | go-engine/internal/consumer/consumer.go:122-127 | every after-process group at rest with a message to read, without a crash point, can reach the attempts o, o + 1, o |
| OrderConsumer.Instance.HandleMessage | src/orders/consumer/order-consumer.ts:203-258 | one call is one path through the protocol, in both modes, with failing processing, failing or swallowed commit and the crash point; it counts and records its message exactly if processing succeeds |
| OrderConsumer.ScriptSteps | go-engine/internal/consumer/consumer.go:104-128 | the order of commit and processing in the two modes, for each answer of the commit |
| OrderStats.EventBalance | src/orders/order.service.ts:283-295 | eventCount is the number of distinct events plus duplicateExtra, for every correct query result |
| OrderStats.FindDuplicates | src/orders/sqlite-order.store.ts:207-223 | exactly the events recorded more than once, each once, with its number of rows, largest first |
| OrderStats.CountIsOccurrences | src/orders/sqlite-order.store.ts:210-213 | the count of a group is how often the event occurs |
| KafkaInspector.TopicLag | src/orders/lab/kafka-inspector.ts:163-207 | the lag of each partition, ordered by partition, and their total, with missing and -1 commits counted from the low end |
| KafkaInspector.FillCommitted | src/orders/lab/kafka-inspector.ts:173-178 | the map holds the last committed offset given for each partition |
| KafkaInspector.LookupIsLast | src/orders/lab/kafka-inspector.ts:173-178 | the last entry for a partition counts |
| KafkaInspector.LagLine | src/orders/lab/kafka-inspector.ts:180-199 | a line names the end of the log and the stored commit, and counts what lies between, from the low end without a commit |
| KafkaInspector.LagAfterReset | src/orders/lab/kafka-inspector.ts:236-243 | after a reset to earliest the lags are the message counts, after latest they are zero |
| KafkaInspector.LagIsRest | src/orders/lab/kafka-inspector.ts:180-199 | the reported lag is what lies above the commit |
| KafkaInspector.DrainedMeansAttempted | src/orders/lab/kafka-inspector.ts:215-258 | an after-process group back at total lag zero after an earliest reset has attempted every retained offset since, swallowed commits included |
| PriorityQueue.UpHeap | go-engine/internal/pool/priority.go:62-66 | sifting up repairs a heap whose last element may be too large |
| PriorityQueue.DownHeap | go-engine/internal/pool/priority.go:69-76 | sifting down repairs a heap whose root may be too small |
| PriorityQueue.RootIsMaximal | go-engine/internal/pool/priority.go:34-36 | the root has maximal priority |
| PriorityQueue.Queue.Swap | go-engine/internal/pool/priority.go:38-42 | two tasks change places; right indices stay right |
| PriorityQueue.Queue.Push | go-engine/internal/pool/priority.go:44-49 | the task is appended and knows its place; right indices stay right unless it was queued already |
| PriorityQueue.Queue.Pop | go-engine/internal/pool/priority.go:51-59 | the last task leaves with index -1 |
| PriorityQueue.Queue.Enqueue | go-engine/internal/pool/priority.go:62-66 | for any task heap order is kept and exactly it is added; right indices stay right exactly if it was not queued already |
| PriorityQueue.Queue.Dequeue | go-engine/internal/pool/priority.go:69-76 | nil exactly if empty; otherwise a task of maximal priority leaves with index -1, and heap order, right indices and the other tasks stay |
| PriorityQueue.Drain | go-engine/internal/pool/priority.go:69-76 | a full drain yields every task once, in non-increasing priority |
| GoPool.PoolBounds | go-engine/internal/pool/pool.go:57-121 | in every interleaving ActiveWorkers <= occupied slots <= Workers, the queue is at most MaxQueue - 1 + callers, and accepted and finished tasks balance |
| GoPool.CountersMean | go-engine/internal/pool/pool.go:113-120 | on every run Processed counts the tasks whose handler succeeded and Failed the others |
| GoPool.AdmitsExactly | go-engine/internal/pool/submit_sync.go:12-48 | Submit and SubmitSync let a task in exactly if the queue is below MaxQueue, and a slot is taken exactly if one is free |
| GoPool.StagesAdvance | go-engine/internal/pool/pool.go:70-121 | every stage of a task leads to the next: off the queue, into a slot, run, counted, and let go |
| GoPool.StepKeeps | go-engine/internal/pool/submit_sync.go:11-75 | every atomic step of Submit, the dispatch loop and SubmitSync keeps the pool's invariant |
| GoPool.OvershootReached | go-engine/internal/pool/pool.go:57-63 | for every limit and number of callers some interleaving reaches that queue bound exactly |
| Retry.Execute | go-engine/internal/pool/pool.go:123-153 | attempts at most retries + 1, the last one decides the outcome in each of five ways, total wait between one and one and a half times the backoff sum |
| Retry.BackoffDoubles | go-engine/internal/pool/pool.go:138-141 | delays start at the base and double up to the cap, if there is one |
| Retry.DrawDefined | go-engine/internal/pool/pool.go:138-142 | the jitter draw is defined after every attempt exactly if BaseDelay >= 2 and MaxDelay is not 1 |
| PrimeSieve.StrikeAll | go-engine/internal/worker/cpu.go:75-87 | from all numbers but 0 and 1 the striking loops leave exactly the primes |
| PrimeSieve.GoSieve | go-engine/internal/worker/cpu.go:64-87 | for every bound what stays true is exactly the primes |
| PrimeSieve.JsSieve | src/queue/worker.js:18-27 | the same for the JavaScript array, which has at least two elements |
| PrimeSieve.Collect | go-engine/internal/worker/cpu.go:89-105 | the number of primes with the first and last ten in order |
| PrimeSieve.GoFindPrimes | go-engine/internal/worker/cpu.go:59-105 | the report for the capped bound; a negative bound panics |
| PrimeSieve.JsFindPrimes | src/queue/worker.js:16-47 | the report for the capped bound, zero meaning the default; a negative bound throws |
| PrimeSieve.RuntimesAgree | src/queue/worker.js:16-47 | the two versions answer alike exactly for bounds other than zero |
| Percentiles.ConsumersAgree | src/orders/consumer/order-consumer.ts:46-55 | the Go and TypeScript consumers pick the same index, within range |
| Percentiles.PercentileIsNearestRank | go-engine/internal/consumer/stats.go:143-161 | the picked sample is the nearest-rank percentile: enough samples are at most it, too few below it |
| Percentiles.NearestRankUnique | go-engine/internal/consumer/stats.go:143-161 | there is only one nearest-rank percentile |
| Percentiles.FloorRule | src/queue/load-test/load-test-metrics.util.ts:37-41 | the load test picks the next index if n*p is a multiple of 100 and p is neither 0 nor 100, and the same one otherwise |
| Percentiles.SortInt64s | go-engine/internal/pool/stats.go:82-92 | the insertion sort sorts and permutes |
| Percentiles.Insert | go-engine/internal/pool/stats.go:83-91 | one turn extends the sorted prefix by one element |
| Percentiles.Stats.RecordLatency | go-engine/internal/pool/stats.go:47-54 | the window is the last thousand latencies of the history, or all of fewer |
| Percentiles.Stats.P99LatencyMs | go-engine/internal/pool/stats.go:65-80 | the nearest-rank 99th percentile of the last thousand latencies, zero without any |
| MemoryDispatcher.RunKeeps | src/orders/dispatch/memory-order.dispatcher.ts:76-143 | in every reachable state: enqueued = processed + failed + pending + in flight, at most one in flight, idle and running means empty, attempted events are a prefix of the dispatched ones |
| MemoryDispatcher.CountersMean | src/orders/dispatch/memory-order.dispatcher.ts:119-139 | processed counts the successes and failed the failures |
| MemoryDispatcher.StoppedStays | src/orders/dispatch/memory-order.dispatcher.ts:76-79 | once stopped, nothing more is accepted or attempted |
| MemoryDispatcher.Dispatcher.Dispatch | src/orders/dispatch/memory-order.dispatcher.ts:76-95 | accepted exactly if not stopped; the new state is the machine's step |
| MemoryDispatcher.Dispatcher.OnRecorded | src/orders/dispatch/memory-order.dispatcher.ts:119-139 | the loop resumes after a success or a failure |

## Left out

- HTTP controllers, middleware, the request analyzer, the exception filter, the dashboard and the reports: plumbing around the core.
- Option and environment parsing: only the two checks that decide admission (positive size, non-empty category) are kept.
- Kafka, gRPC, SQLite, Postgres and Prometheus clients: an abstract log, one committed offset per partition and an event table stand in.
- Group rebalancing, session timeouts and zombie consumers: a partition is handed on only after its owner was lost or finished its message.
- Retention deletions: the low end of a partition does not move during a run.
- Message parsing and validation: whether processing a message succeeds is an input.
- Wall-clock time, heap usage, random draws and the success of a send are inputs; ratios are exact, without floating-point rounding.
- `BATCH_SIZE_THRESHOLD` and `BATCH_MAX_SIZE`: they only decide when a batch start is scheduled; in the model it may happen at any time, which covers every schedule.
- `withExecutionTimeout`: a task settles once, as success or failure, at any time; what decides which is not modelled.
- `handleWorkerFailure` without a result callback: the callback is registered before the first worker exists.
- Health pings and worker creation: a failure or an `initialized` message may come at any time.
- `determineOperation`, dispatch totals per type, recent counters and log output: each is settled by reading one branch.
- Shutdown (`destroy`) and `processWithoutWorkers`: runs end before them.
- Snapshot files: the restored counters and id are part of the configuration.
- `countByGroup`; the order of rows with equal counts.
- `crashAfter` exists only in the TypeScript consumer; for the Go consumer it is zero. Only the Go consumer swallows commits. The Go consumer records nothing, so the duplicate counts concern the TypeScript one.
- `MaxMessages` of the Go consumer: stopping early is a consumer leaving between two messages.
- The Go pool's rate limiter, `Stop`, averages, and `P99` through `GetStats`, whose copy has no latencies.
- Overflow of the shift in the Go backoff and of 64-bit integers.
- Cancellation inside `findPrimes`, non-integer bounds in JavaScript, and the other CPU, memory and custom workloads.
- Mutexes and the semaphore channel themselves: each critical section or channel operation is one atomic step.
- Queue elements are values with unique ids; the model does not capture two references to one task object.
- The waiting room and the pool are fields holding sequences and maps that the methods reassign; in-place splicing of a shared array is modelled by assigning the spliced sequence.
