# Verification model of the device task platform

Dafny models of four connected parts of the repository, with their main guarantees proved for all inputs, runs and
interleavings.

**The device task queue.** `RedisMachine` runs any number of clients over one Redis, one command per tick, in any order:
the compare-and-swap loop is a read and a script, the append, requeue and list commands are single steps. `Linearizability`,
`Conservation` and `RedisAnswers` say what every schedule keeps and what an answer proves, `CleanRuns` when no task is lost,
`BlindWrites` what creations and stubs of existing tasks can overwrite, and `RedisRaces` shows the schedules that break what is
not kept. `RedisStore` and `MemoryStore` are the two stores as classes whose methods run one at a time, each proved against a
function on its lists and states; `SoloRuns` shows that the functions of the Redis store are what the machine does when a client
is not disturbed.
`QueueSpec` is the abstract queue that `RedisRefinement` and `MemoryRefinement` prove both stores to be, `StoresAgree` draws
the comparison, `Generations` is about dispatch generations in both stores over every sequence of operations, `Fifo` and
`ServiceOrder` about service order, `Deadlines` about what recovery and expiry do when, `StoreRules` about acks and gate drops,
`TaskIndex` about the per-device index.

**Path geometry.** `PathGeometry`, `PathSimplify`, `TravelOrder`, `Workspace`, `SvgParser` and `SvgMeaning`: polyline
simplification with its explicit stack, smoothing, travel reordering, workspace normalisation and the SVG path interpreter.
Coordinates are reals, distances are compared squared (the comparisons of roots are the same), and rounding to two decimals
is any function that moves a value by at most 0.005.

**The workflow.** `Ledger` and `Workflow`: the append-only ledger, the fold to a status, the guarded transitions, the cache.

**Claims, limits and validation.** `Idempotency`, `RateLimit`, `Validation` and `CreatedTasks`.

`Basics`, `Motion`, `TaskModel`, `Refinement` and `Wrappers` hold what these share. Clock readings, request ids and the order in which
Redis enumerates a set are parameters of the operations.

## Where the code does less than its documentation

Each point is a lemma with a state or input that shows it, and the exact condition where there is one.

- The default state of a compare-and-swap never creates a task: the script creates only below version zero
  (`Linearizability.DefaultsNeverWritten`). It is written only over a creation or stub committed between the read and the
  script, which it then replaces (`RedisRaces.DefaultReplacesCreation`; exactly when: `BlindWrites.DefaultWrittenIff`).
- Recorded events can be lost, and a stale compare-and-swap can win, when a creation or a stub lands on an existing task or
  under a held default (`RedisRaces.StubLosesEvent`, `RedisRaces.BlindCreateBreaksReplay`; exactly when: `BlindWrites.EventsKeptIff`,
  `BlindWrites.ReplayIff`).
- A requeue can list a task twice (`RedisRaces.RequeueDuplicates`; exactly when: `Conservation.PushKeepsSingleLocation`).
- `increment_retry_count` may answer a count below the stored one (`RedisRaces.RetryAnswerIsStale`; exactly when:
  `RedisAnswers.RetryAnswer`, `RedisAnswers.GivenUpAnswer`).
- A rejected ack can take a task off the processing list (`RedisRaces.RejectedAckLosesTask`, `RedisRaces.LateBumpLosesTask`,
  `RedisRaces.EarlyReadLosesTask`; exactly when: `CleanRuns.LostExactlyByCleanUp`; never with stamped acks or on calm schedules:
  `CleanRuns.StampedAcksLoseNothing`, `CleanRuns.CalmRunsLoseNothing`).
- An ack with an old generation can succeed between the move and the bump of a recovery (`RedisRaces.AckBetweenMoveAndBump`;
  exactly when: `RedisAnswers.StampedVerdict`).
- A rebuild of the task index can delete entries written since its scan (`TaskIndex.StaleDeleteHides`; exactly when:
  `TaskIndex.ScheduleCovers`).
- An in-memory recovery reverses the dispatch order (`StoresAgree.MemoryRecoverOrder`), and an empty event phase is treated
  differently by the two stores (`StoresAgree.EmptyPhaseDiffers`).
- COMPLETED is logged as "done", which is no workflow state: it never shows and is not absorbing
  (`Workflow.CompletedDoesNotStick`).
- A lower-case `l` is drawn as an absolute line, although the docstring of the parser says that it is converted
  (`SvgMeaning.LowerLineIsAbsolute`), and `Z` after a late lower-case `m` closes to the origin (`SvgMeaning.LateMoveCloses`; exactly
  when both do no harm: `SvgMeaning.RelativeToAbsolute`). `Q` is not drawn as the quadratic curve
  (`SvgMeaning.QuadDrawnAsPrescribed`).
- Two claims of one worker can stand while the earlier is being released during an outage (`Idempotency.ReleaseAdmitsTwo`); two
  claims that its table lets through are otherwise a time to live apart (exactly when: `Idempotency.TableBarsExactly`,
  `Idempotency.ClaimsApart`).
- Motion events bypass the transition guard (`Workflow.MotionBypassesGuard`; exactly when they do no harm: `Workflow.RawLedger`).
- Optimised paths that go below the surface are not read back whole (`TravelOrder.SplitJoin`).
- A drawing task without a path, or a profile whose feed limit is below 1, is accepted at creation and dropped by the pop gate
  (`Validation.CreationImpliesGate`).

## Model

| member | source | states |
|---|---|---|
| `Linearizability.Linearizable` | device_gateway/redis_store_helpers.py:217-246 | For every schedule of any number of clients the stored states are the initial ones with the committed mutators, appends and writes applied in commit order; each commit is versioned one above what it overwrote; a client that gave up or found nothing has committed nothing, and each success it was told of is one commit of the log |
| `Linearizability.NothingLost` | device_gateway/redis_cas.py:31-82 | In every run the version rises by exactly one per commit on a task, the retry count by the committed retries, the generation by the committed recoveries, and the event list is the old one followed by the appended events in commit order |
| `Linearizability.DefaultsNeverWritten` | device_gateway/redis_store_helpers.py:235-246 | A state that nobody created blindly is never created by a compare-and-swap: the default-state path writes nothing |
| `Linearizability.ReplayCounts` | device_gateway/redis_cas.py:202-214 | The counters of a replayed log: version, retries, generation and events of a task after any log of legal commits |
| `Linearizability.GenerationGrows` | device_gateway/redis_store_recover.py:24-39 | Between any two points of a log the generation rises by the number of committed recoveries in between |
| `Linearizability.SameGenerationNoRecovery` | device_gateway/redis_store_queue.py:195-210 | Two points of a log show the same generation exactly when no recovery was committed in between |
| `Conservation.Conserved` | device_gateway/redis_store_queue.py:34-276 | On every interleaving with fresh enqueue ids and requeues of what was taken: no task is in two places or twice in one, no id is removed twice, and an enqueued task is somewhere exactly while it has not been removed |
| `Conservation.OneSuccess` | device_gateway/redis_store_queue.py:163-226 | Of all the successes that clients were told for acks, abandons and removals there is at most one per task, and it is a recorded removal |
| `RedisRaces.RequeueDuplicates` | device_gateway/redis_store_queue.py:111-128 | From every state with a task in pending, requeueing it lists it twice: the push does not depend on the removal; Conservation.PushKeepsSingleLocation is the exact condition |
| `Conservation.PushKeepsSingleLocation` | device_gateway/redis_store_queue.py:111-128 | The push of a requeue keeps every task in at most one place exactly when the pushed ids are distinct and none of them is held anywhere but in the requeuing client's own hands |
| `RedisRaces.RejectedAckLosesTask` | device_gateway/redis_store_queue.py:205-214 | A schedule on which an ack that is answered False removes a task that a pop has just moved: it is in no list afterwards; when that happens is the subject of CleanRuns |
| `RedisRaces.AckBetweenMoveAndBump` | device_gateway/redis_store_recover.py:67-70 | A schedule on which a task that was recovered and popped again is acknowledged with its old generation, because the bump is not committed when the ack reads; RedisAnswers.StampedVerdict is the exact condition |
| `RedisRaces.LateBumpLosesTask` | device_gateway/redis_store_recover.py:67-70 | A schedule on which the bump of a recovery is committed after the next pop wrote its state: an ack without a generation, read after that, is rejected and takes the task off processing |
| `RedisRaces.EarlyReadLosesTask` | device_gateway/redis_store_queue.py:205-221 | From every state with a recovered task at the head of pending: an ack that reads it before a pop moves it takes it off processing afterwards |
| `CleanRuns.LostExactlyByCleanUp` | device_gateway/redis_store_queue.py:214-221 | On every schedule a task leaves the queue through an ack answered False exactly when some ack in the clean-up branch finds its entry in processing at its LREM |
| `CleanRuns.NothingLostAccounts` | device_gateway/redis_store_queue.py:163-276 | On every fair schedule none is lost that way exactly when each removal is a success that its caller was told of, an expiry or a gate drop |
| `CleanRuns.StampedAcksLoseNothing` | device_gateway/redis_store_queue.py:95-226 | On every legal and fair schedule in which each ack carries a generation that a committed update of some pop stamped, every removal is a reported success, an expiry or a gate drop |
| `CleanRuns.CalmRunsLoseNothing` | device_gateway/redis_store_queue.py:78-226 | The same for acks with any generation or none, on schedules where no ack of a task is read between a pop's move of it and that pop's update, no pop moves a task between the move and the bump of its recovery or while an ack cleans it up, and no pop gives its update up |
| `RedisAnswers.RetryAnswer` | device_gateway/redis_store_queue.py:141-151 | On every legal schedule: a written retry increment answers the stored count less the retries committed between its first read and its own commit, so the right count exactly when there was none |
| `RedisAnswers.GivenUpAnswer` | device_gateway/redis_store_queue.py:141-151 | An increment that gave up answers one more than it first read: at any later point that is the stored count exactly when one retry was committed since |
| `RedisAnswers.StampedVerdict` | device_gateway/redis_store_queue.py:188-221 | An ack that reads after a pop's committed update, with the generation stamped there, passes exactly when no recovery was committed in between and is rejected without clean-up otherwise |
| `RedisAnswers.AcceptedAck` | device_gateway/redis_store_queue.py:179-226 | On every legal schedule an ack answered True with a stamped generation proves that no recovery was committed between the stamp and the ack's read |
| `RedisRaces.StubLosesEvent` | device_gateway/redis_store.py:66-72 | A schedule on which two events recorded for a missing task leave only the second; BlindWrites.EventsKeptIff is the exact condition |
| `RedisRaces.BlindCreateBreaksReplay` | device_gateway/redis_store.py:52-54 | Creating an existing id again lets a stale compare-and-swap through, so the states are no replay of the log; BlindWrites.ReplayIff is the exact condition |
| `RedisRaces.DefaultReplacesCreation` | device_gateway/redis_cas.py:31-58 | From every state without the task: a client that read it as missing writes its default over a creation that lands before its script |
| `BlindWrites.WinsOverWhatItRead` | device_gateway/redis_cas.py:31-58 | On every schedule, legal or not: a script that wins with no blind write of its id since its read writes over exactly the state that it read, and that was no default |
| `BlindWrites.DefaultWrittenIff` | device_gateway/redis_store_helpers.py:235-246 | On every schedule a default state is written exactly when the last commit on its id is a blind write, which was then committed between the client's read and its script |
| `BlindWrites.EventsKeptIff` | device_gateway/redis_store.py:56-74 | On every schedule every recorded event of a task is stored at each point, in commit order, exactly when no blind write lands on a state with events and no winning script writes back a copy with other events than the stored ones |
| `BlindWrites.DropNeedsBlindWrite` | device_gateway/redis_store.py:56-74 | A winning script drops events only when a blind write of the id was committed since its read |
| `BlindWrites.ReplayIff` | device_gateway/redis_cas.py:31-58 | On every schedule the stored states are the commit log replayed at each point exactly when no winning script writes something else than its mutator makes of the stored state |
| `RedisRaces.RetryAnswerIsStale` | device_gateway/redis_store_queue.py:141-151 | A schedule on which a retry that committed second answers the count its first attempt computed, one below the stored count; RedisAnswers.RetryAnswer is the exact condition |
| `SoloRuns.SoloRun` | device_gateway/redis_store_queue.py:34-276 | An operation begun by an idle client and run alone, command by command, from any state of the other clients changes lists and states exactly as the sequential store function does, and what its client is told on the way is the answer of that function |
| `SoloRuns.SoloCas` | device_gateway/redis_store_helpers.py:217-246 | An uncontended compare-and-swap loop is one update; on a missing state with a default all three attempts fail and nothing changes |
| `SoloRuns.SoloPop` | device_gateway/redis_store_queue.py:78-109 | The commands of a pop (moves, gate drops, state updates) add up to the sequential pop |
| `SoloRuns.SoloRecover` | device_gateway/redis_store_recover.py:41-79 | The commands of a recovery add up to the sequential recovery |
| `RedisStore.RedisDeviceTaskStore.CasScript` | device_gateway/redis_cas.py:31-58 | Writes exactly when the stored version is the expected one, or when nothing is stored and the expected version is below zero; answers 1, 0 or 2 |
| `RedisStore.RedisDeviceTaskStore.CasUpdate` | device_gateway/redis_store_helpers.py:217-246 | With nobody interfering: the mutated state with the next version when there is one, nothing written otherwise |
| `RedisStore.RedisDeviceTaskStore.RecordMotionEvent` | device_gateway/redis_store.py:56-74 | Appends the event, sets a status that is not empty, or writes a stub; answers the event count |
| `RedisStore.RedisDeviceTaskStore.Enqueue` | device_gateway/redis_store_queue.py:34-45 | Appends the stamped task to pending, updates its state, answers the depth |
| `RedisStore.RedisDeviceTaskStore.MoveMany` | device_gateway/redis_store_helpers.py:126-139 | Moves up to the limit from the head of pending to the head of processing |
| `RedisStore.RedisDeviceTaskStore.GatePopped` | device_gateway/redis_store_queue.py:47-76 | Keeps what the gate accepts; the rest leaves processing with a failed state |
| `RedisStore.RedisDeviceTaskStore.Dispatch` | device_gateway/redis_store_queue.py:95-109 | Marks each task dispatching and stamps the generation of its state |
| `RedisStore.RedisDeviceTaskStore.Pop` | device_gateway/redis_store_queue.py:78-109 | Moves, gates, dispatches: the store and the answer of the sequential pop |
| `RedisStore.RedisDeviceTaskStore.RemoveProcessing` | device_gateway/redis_store_helpers.py:146-160 | Removes the first processing entry with the id, if any, and answers whether there was one |
| `RedisStore.RedisDeviceTaskStore.Requeue` | device_gateway/redis_store_queue.py:111-128 | Takes the tasks off processing, puts all of them in front of pending in order, marks them queued |
| `RedisStore.RedisDeviceTaskStore.IncrementRetry` | device_gateway/redis_store_queue.py:141-151 | Adds one retry and answers the count computed from what was read |
| `RedisStore.RedisDeviceTaskStore.Ack` | device_gateway/redis_store_queue.py:179-226 | The ack rules: stale or missing generation, recovered entry, then removal |
| `RedisStore.RedisDeviceTaskStore.Recover` | device_gateway/redis_store_recover.py:41-79 | Moves stale entries back and counts them |
| `RedisStore.RedisDeviceTaskStore.ExpireStaleQueued` | device_gateway/redis_store_queue.py:228-263 | Drops over-age pending entries, expires queued states, counts them |
| `RedisStore.RedisDeviceTaskStore.RemovePending` | device_gateway/redis_store_queue.py:163-177 | Removes the first pending entry with the id |
| `RedisStore.RedisDeviceTaskStore.Abandon` | device_gateway/redis_store_queue.py:265-276 | Takes the task off processing and marks it dead |
| `Fifo.PopKeepsOrder` | device_gateway/redis_store_helpers.py:126-139 | A pop without gate drops keeps reverse(processing) ++ pending and hands out the first pending tasks in order |
| `Fifo.RecoverResult` | device_gateway/redis_store_recover.py:47-71 | A recovery leaves exactly the entries that are not stale, and puts the stale ones in front of pending in dispatch order |
| `Fifo.RecoverOrder` | device_gateway/redis_store_recover.py:47-71 | A recovery keeps the service order exactly when no stale entry is behind a fresh one in processing, so always when all are stale |
| `Fifo.PopThenRequeue` | device_gateway/redis_store_queue.py:111-128 | A pop followed by a requeue of what it returned restores both lists, up to generation stamps |
| `ServiceOrder.RedisEnqueueIsLast` | device_gateway/redis_store_queue.py:34-45 | An enqueue puts the task, with its enqueue time, at the very end of the service order of its device and leaves the other devices alone |
| `ServiceOrder.MemoryEnqueueIsLast` | device_gateway/memory_store.py:107-115 | The same in memory, where the service order is the processing table followed by the queue |
| `ServiceOrder.RedisPopTakesFirst` | device_gateway/redis_store_queue.py:78-109 | A pop takes as many tasks as the limit allows off the head of pending and answers, in that order, those that the gate accepts |
| `ServiceOrder.MemoryPopTakesFirst` | device_gateway/memory_store.py:117-138 | An in-memory pop answers the first tasks of the queue, as many as the limit allows, in order, and leaves the rest |
| `ServiceOrder.MemoryPopKeepsOrder` | device_gateway/memory_store.py:117-138 | With distinct ids an in-memory pop keeps the service order, up to generation stamps |
| `ServiceOrder.RedisRequeueInFront` | device_gateway/redis_store_queue.py:111-128 | Requeued tasks stand in front of pending in the order given |
| `ServiceOrder.MemoryRequeueInFront` | device_gateway/memory_store.py:140-148 | The same in memory; the processing table is left alone |
| `ServiceOrder.RedisRequeueMarks` | device_gateway/redis_store_queue.py:111-128 | Every requeued task with a state is queued and has no start time afterwards; no other state changes and none is created |
| `ServiceOrder.MemoryRequeueMarks` | device_gateway/memory_store.py:140-148 | Every requeued task has a queued state afterwards; no other state changes |
| `ServiceOrder.RedisFirstComeFirstServed` | device_gateway/redis_store_queue.py:34-109 | In every run from any store: a task enqueued where it was not pending comes out after every task that was not enqueued, requeued or recovered there since, whenever pops hand out both |
| `ServiceOrder.MemoryFirstComeFirstServed` | device_gateway/memory_store.py:107-138 | The same for every run of the in-memory store |
| `Deadlines.RedisRecoverMoves` | device_gateway/redis_store_recover.py:47-77 | On any store with distinct entries a recovery moves an entry exactly if its start time, or without one its enqueue time, is positive and more than the timeout before now |
| `Deadlines.MemoryRecoverMoves` | device_gateway/memory_store.py:179-199 | In memory exactly if the time in its table entry is |
| `Deadlines.RedisExpireRemoves` | device_gateway/redis_store_queue.py:228-263 | On any store an expiry removes exactly the entries enqueued more than the age before now, keeps the others in order, counts what it removes and turns queued states of the removed into expired |
| `Deadlines.MemoryExpireRemoves` | device_gateway/memory_store.py:82-105 | The same in memory |
| `Deadlines.WorkDeadline` | device_gateway/redis_store_recover.py:47-77 | In every run of the abstract queue a task at work since a pop at reading p > 0 is returned by a recovery at reading r exactly when r - p exceeds the timeout |
| `Deadlines.WaitDeadline` | device_gateway/redis_store_queue.py:228-263 | In every such run a task on its device since an enqueue at reading e > 0 and waiting is removed by an expiry at reading r exactly when r - e exceeds the age |
| `Deadlines.RedisRecoverDeadline` | device_gateway/redis_store_recover.py:47-77 | In every legal run of the Redis store a task in processing since a pop at reading p > 0 is moved back by a recovery exactly when its reading is more than the timeout after p, and stays in processing otherwise |
| `Deadlines.RedisExpireDeadline` | device_gateway/redis_store_queue.py:228-263 | In every such run a task on its device since an enqueue at reading e > 0 and pending is removed by an expiry exactly when its reading is more than the age after e; a queued one becomes expired |
| `Deadlines.MemoryRecoverDeadline` | device_gateway/memory_store.py:179-199 | The recovery deadline for every legal run of the in-memory store |
| `Deadlines.MemoryExpireDeadline` | device_gateway/memory_store.py:82-105 | The expiry deadline for every legal run of the in-memory store |
| `StoreRules.RedisAckRules` | device_gateway/redis_store_queue.py:179-226 | An ack is accepted exactly when the task is in processing, the generation fits and no recovery mark is set; the entry leaves exactly when the generation fits, and only the start time of that state changes |
| `StoreRules.MemoryAckRules` | device_gateway/memory_store.py:156-177 | In memory there is no recovery mark: accepted exactly when the task is in the table and the generation fits, and nothing changes otherwise |
| `StoreRules.RedisPopJudges` | device_gateway/redis_store_queue.py:47-109 | Of the tasks a pop moves the rejected ones leave processing with a failed and rejected state, the accepted ones stand at its head with a dispatching state, and no other state changes |
| `QueueSpec.Determined` | device_gateway/memory_store.py:82-245 | In one abstract state every operation but pop and requeue has one possible answer and one possible next state |
| `QueueSpec.GenerationIsRecoveries` | device_gateway/redis_store_recover.py:24-39 | In every run of the abstract queue, requeues included, the generation of a task is the number of its recoveries since its creation |
| `QueueSpec.StampedAck` | device_gateway/redis_store_queue.py:179-226 | In every such run an ack with the generation stamped at a pop succeeds exactly if the task is at work there and was not recovered since; a refused ack changes nothing |
| `RedisRefinement.RefinesStep` | device_gateway/redis_store_queue.py:34-276 | Each legal operation of the Redis store is a step of the abstract queue with the same answer |
| `RedisRefinement.Refines` | device_gateway/redis_store_queue.py:34-276 | Each legal run of the Redis store is a run of the abstract queue, answer by answer |
| `Generations.RedisGenerations` | device_gateway/redis_store_recover.py:24-39 | For every sequence of operations from any store, with requeues, gate drops and enqueues of listed ids: between any two points the generation of a task rises by the number of its entries that recoveries moved back |
| `Generations.RedisGenerationSinceCreation` | device_gateway/redis_store_recover.py:24-39 | Since its creation the generation of a task is the number of its recoveries |
| `Generations.RedisStampedAck` | device_gateway/redis_store_queue.py:95-226 | For every such sequence: an ack with the generation stamped at a pop is answered True exactly if the task is in that processing list and was not recovered since; a refused ack changes nothing |
| `MemoryRefinement.RefinesStep` | device_gateway/memory_store.py:45-245 | Each legal operation of the in-memory store is a step of the abstract queue with the same answer |
| `MemoryRefinement.Refines` | device_gateway/memory_store.py:45-245 | Each legal run of the in-memory store is a run of the abstract queue, answer by answer |
| `Generations.MemoryGenerations` | device_gateway/memory_store.py:179-199 | The same count for every sequence of operations of the in-memory store |
| `Generations.MemoryGenerationSinceCreation` | device_gateway/memory_store.py:179-199 | Since its creation the generation of a task in memory is the number of its recoveries |
| `Generations.MemoryStampedAck` | device_gateway/memory_store.py:117-199 | The same stamped-ack law for every sequence of operations of the in-memory store |
| `StoresAgree.StoresAgree` | device_gateway/memory_store.py:45-245 | From empty both stores answer the same operations alike as long as their pops choose alike, and end in one abstract queue |
| `StoresAgree.PopsEqually` | device_gateway/memory_store.py:117-138 | In one abstract queue both stores pop the same number of tasks |
| `StoresAgree.EmptyPhaseDiffers` | device_gateway/memory_store.py:49-55 | After an event both stores show the same status exactly when its phase is not empty, or the status was empty before |
| `StoresAgree.MemoryRecoverReverses` | device_gateway/memory_store.py:179-199 | An in-memory recovery puts the stale tasks back in the reverse of their dispatch order |
| `StoresAgree.MemoryRecoverOrder` | device_gateway/memory_store.py:179-199 | It keeps the service order exactly if nothing is stale, or exactly one entry is and it is the one dispatched last |
| `MemoryStore.InMemoryDeviceTaskStore.Enqueue` | device_gateway/memory_store.py:107-115 | Appends the stamped task, updates its state, answers the depth |
| `MemoryStore.InMemoryDeviceTaskStore.PopOne` | device_gateway/memory_store.py:125-135 | One turn of the pop loop: queue head to processing table, state and stamp |
| `MemoryStore.InMemoryDeviceTaskStore.Pop` | device_gateway/memory_store.py:117-138 | Up to the limit from the queue head; an emptied queue is deleted |
| `MemoryStore.InMemoryDeviceTaskStore.Requeue` | device_gateway/memory_store.py:140-148 | Puts all tasks in front in order and marks them queued; processing is left alone |
| `MemoryStore.InMemoryDeviceTaskStore.Ack` | device_gateway/memory_store.py:156-177 | The generation rules, then removal of the processing entry |
| `MemoryStore.InMemoryDeviceTaskStore.Recover` | device_gateway/memory_store.py:179-199 | Moves stale entries back, bumps generations, counts them |
| `MemoryStore.InMemoryDeviceTaskStore.ExpireStaleQueued` | device_gateway/memory_store.py:82-105 | Keeps what is not over age, expires queued states, counts the rest |
| `MemoryStore.InMemoryDeviceTaskStore.RemovePending` | device_gateway/memory_store.py:223-232 | Deletes the first entry with the id |
| `TaskIndex.IndexedTaskHash.WriteTaskState` | device_gateway/redis_store_helpers.py:183-215 | Writes by overwriting or compare-and-swap and indexes what was written; keeps the index covering |
| `TaskIndex.IndexedTaskHash.ActiveTasksScan` | device_gateway/redis_store.py:96-111 | The active tasks of the device in the order of the hash |
| `TaskIndex.IndexedTaskHash.ReconcileDeviceIndex` | device_gateway/redis_store_index.py:83-110 | Adds every matching id to the index, or deletes it when there is none |
| `TaskIndex.IndexedTaskHash.ActiveTasksIndexed` | device_gateway/redis_store_index.py:18-41 | Lists by the index, or rebuilds and scans when it is empty |
| `TaskIndex.IndexAgrees` | device_gateway/redis_store_index.py:18-41 | After any writes and rebuilds from empty, in whatever order Redis enumerates, the indexed list of a named device is the bag of the full scan |
| `TaskIndex.ListsActive` | device_gateway/redis_store_helpers.py:251 | A listing shows exactly the tasks of the device whose status is one of the seven active texts |
| `TaskIndex.AgreeIff` | device_gateway/redis_store_index.py:18-41 | For any index the two lists are the same bag exactly when the index misses no active task |
| `TaskIndex.EmptyNameMisses` | device_gateway/redis_store_helpers.py:206-214 | For the device with the empty name a rebuild and a later write make the lists differ |
| `TaskIndex.ScheduleCovers` | device_gateway/redis_store_helpers.py:198-214 | Command by command, on every schedule from empty: every task of a named device is always in its index or on its way there, exactly when no rebuild sends its DEL after a task was written and indexed |
| `TaskIndex.ListingAgrees` | device_gateway/redis_store_index.py:18-41 | In the middle of such a schedule the index gives the bag of the scan exactly when no active task is still only on its way, so whenever no index command is under way; the indexed query, which scans when the index is empty, gives it then or when the index is empty |
| `TaskIndex.StaleDeleteHides` | device_gateway/redis_store_index.py:83-110 | A schedule on which a rebuild deletes the index of a device after its first task was indexed; a second task then hides the first for good |
| `PathGeometry.NearestOfSegment` | device_gateway/path_optimizer.py:183-193 | The clamped projection is the nearest point: no point of the segment is closer |
| `PathGeometry.HeightOver` | device_gateway/path_optimizer.py:183-193 | Over a horizontal segment the measured distance is the height |
| `PathSimplify.FindFarthest` | device_gateway/path_optimizer.py:57-62 | The inner loop finds the first point furthest from the segment |
| `PathSimplify.Compress` | device_gateway/path_optimizer.py:39-68 | The stack loop terminates and returns the points at the kept indices of the recursive simplification |
| `PathSimplify.SimplifiedShape` | device_gateway/path_optimizer.py:39-68 | Both ends are kept and the result is a subsequence of the path |
| `PathSimplify.DroppedWithinTolerance` | device_gateway/path_optimizer.py:39-68 | Every dropped point lies within the tolerance of the segment joining the kept points on either side |
| `PathSimplify.MeasuredIsNearest` | device_gateway/path_optimizer.py:183-193 | The measured distance of a dropped point is no more than its distance to any point of that segment |
| `PathSimplify.KeptForReason` | device_gateway/path_optimizer.py:39-68 | Every inner point that is kept lies between two kept points, is the furthest from their segment of all between them, and is further off than the tolerance |
| `PathSimplify.ChordExactly` | device_gateway/path_optimizer.py:39-68 | A path of more than two points becomes its two ends exactly when the tolerance is not negative and every inner point lies within it of the chord |
| `PathSimplify.SimplifyTwice` | device_gateway/path_optimizer.py:39-68 | Simplifying twice changes nothing |
| `PathSimplify.Smooth` | device_gateway/path_optimizer.py:70-95 | The loops compute the iterated three-point average |
| `PathSimplify.SmoothingKeeps` | device_gateway/path_optimizer.py:70-95 | Both ends, all heights and all markers are kept |
| `PathSimplify.SmoothingStays` | device_gateway/path_optimizer.py:70-95 | Every box around the path holds the smoothed path |
| `PathSimplify.SmoothingReverses` | device_gateway/path_optimizer.py:70-95 | Smoothing does not depend on the drawing direction |
| `PathSimplify.SmoothingMoves` | device_gateway/path_optimizer.py:70-95 | Smoothing commutes with scaling and moving |
| `PathSimplify.SmoothingMeets` | device_gateway/path_optimizer.py:70-95 | Each round puts an inner point half way between where it was and the middle of its neighbours |
| `PathSimplify.ZigzagFlattens` | device_gateway/path_optimizer.py:70-95 | A zigzag about a line lies on it after one round |
| `TravelOrder.SplitByPenUp` | device_gateway/path_optimizer.py:117-143 | The loop computes the recursive split |
| `TravelOrder.SplitDraws` | device_gateway/path_optimizer.py:117-143 | Segments are not empty and hold only unmarked points that are not above the surface |
| `TravelOrder.SplitJoin` | device_gateway/path_optimizer.py:97-143 | Splitting a joined path gives the segments back exactly when each after the first starts on the surface |
| `TravelOrder.JoinPlaces` | device_gateway/path_optimizer.py:97-115 | A joined path is its segments in order with one marked point in front of each but the first, over its start and at the height where the last one ended, and nothing else |
| `TravelOrder.PickNearest` | device_gateway/path_optimizer.py:156-171 | The inner loop finds the cheapest remaining segment, lowest index first, reversed only if its far end is strictly nearer |
| `TravelOrder.ReorderSegments` | device_gateway/path_optimizer.py:145-181 | The greedy loop: first segment fixed, then always the nearest remaining end |
| `TravelOrder.GreedyUnique` | device_gateway/path_optimizer.py:145-181 | No other order has the greedy property |
| `TravelOrder.TourTakesNearest` | device_gateway/path_optimizer.py:145-181 | The tour begins with the first segment as it is; each later one begins, as it is drawn, at the end that is nearest to the pen among all ends that are left, lowest segment first, and is turned only if its far end is strictly nearer |
| `TravelOrder.OrderVisits` | device_gateway/path_optimizer.py:145-181 | Every segment is visited exactly once |
| `TravelOrder.OrderConserves` | device_gateway/path_optimizer.py:145-181 | The drawn points are conserved as a bag |
| `TravelOrder.OptimizeTravel` | device_gateway/path_optimizer.py:97-115 | The path unchanged with at most one segment, else the greedy order joined by pen-up moves |
| `TravelOrder.TravelRoundTrip` | device_gateway/path_optimizer.py:97-181 | For paths that never go below the surface, splitting the optimised path gives exactly the greedy order, with points and segments conserved |
| `Workspace.AssertWithin` | device_gateway/path_pipeline.py:173-190 | Accepts exactly the paths inside, else names the first point outside |
| `Workspace.Normalize` | device_gateway/path_pipeline.py:139-170 | The placed path checked against the workspace; an empty path is left alone |
| `Workspace.ScaleIsBest` | device_gateway/path_pipeline.py:158-162 | The scale lies in [0, 1], fits both axes, and is the largest such number |
| `Workspace.NormalizeFits` | device_gateway/path_pipeline.py:139-170 | With twice the margin of room no path is rejected, and the margin is kept up to rounding |
| `Workspace.AcceptsAllIff` | device_gateway/path_pipeline.py:139-170 | Normalisation raises for no path exactly when the workspace is at least twice the margin each way |
| `Workspace.NormalizeIsUniform` | device_gateway/path_pipeline.py:158-167 | All differences of points are scaled by one number, up to rounding, and heights are kept |
| `Workspace.NormalizeTouches` | device_gateway/path_pipeline.py:158-167 | The lowest coordinate each way is placed on the margin of 2, and no marker is kept |
| `Workspace.ApplyMultiPass` | device_gateway/path_optimizer.py:201-217 | The loops give the numbered copies, each moved by its number times the offset |
| `Workspace.PassesAt` | device_gateway/path_optimizer.py:201-217 | Point i of copy c is point i of the path moved to the right by c offsets and rounded; height and y stay |
| `Workspace.OptimizedStays` | device_gateway/path_pipeline.py:117-123 | Compressing and smoothing keep every point inside the workspace |
| `Workspace.Render` | device_gateway/path_pipeline.py:193-220 | With at most one pass, or passes that move less than the margin, the final bounds check cannot fail; whatever is returned is inside, and it is the placed path or its copies, simplified and smoothed when asked for |
| `SvgParser.Tokenize` | device_gateway/svg_parser.py:8-25 | The character loop computes the recursive tokens |
| `SvgParser.TokenRoundTrip` | device_gateway/svg_parser.py:8-25 | Tokens written with blanks between them are read back as they are |
| `SvgParser.TokensKeepCharacters` | device_gateway/svg_parser.py:8-25 | The tokens are the ASCII letters, digits, signs and points of the path, in order, none lost and none added |
| `SvgParser.NumbersApart` | device_gateway/svg_parser.py:8-25 | Two numbers are two tokens exactly if a letter, a comma or a blank stands between them |
| `SvgParser.BezierToPolyline` | device_gateway/svg_parser.py:28-49 | The points at 1/8, ..., 8/8 of the curve |
| `SvgParser.ParseArgs` | device_gateway/svg_parser.py:63-70 | The next numbers, or nothing when one is missing or no number |
| `SvgParser.RunHandler` | device_gateway/svg_parser.py:73-153 | One command: tokens consumed (all of them when it is cut short), new state, points appended |
| `SvgParser.SvgPathToMotion` | device_gateway/svg_parser.py:156-190 | The token loop terminates and returns the interpreted polyline, placed, rounded and clamped |
| `SvgParser.ClampPath` | device_gateway/path_data.py:103-113 | The first points up to the limit, each clamped and rounded |
| `SvgMeaning.InterpretsCommands` | device_gateway/svg_parser.py:156-190 | The token loop executes a well-formed command list command by command |
| `SvgMeaning.DrawsCommands` | device_gateway/svg_parser.py:8-190 | A path string written from commands is drawn as those commands say |
| `SvgMeaning.MovesDraw` | device_gateway/svg_parser.py:73-89 | Where M and m go from any state, and where a later close returns to |
| `SvgMeaning.LinesDraw` | device_gateway/svg_parser.py:73-89 | L and l go to the same scaled point |
| `SvgMeaning.AxesDraw` | device_gateway/svg_parser.py:92-107 | H, h, V and v change one coordinate |
| `SvgMeaning.ClosesDraw` | device_gateway/svg_parser.py:156-190 | Z and z return to the start of the subpath |
| `SvgMeaning.CubicsDraw` | device_gateway/svg_parser.py:109-132 | C and c draw the eight curve points at even parameters through two control points, and end on the last pair |
| `SvgMeaning.QuadsDraw` | device_gateway/svg_parser.py:134-153 | Q and q draw the cubic with their control point used twice |
| `SvgMeaning.CutShort` | device_gateway/svg_parser.py:73-153 | A command with too few numbers draws nothing and ends the path; an abandoned M or m moves the close point |
| `SvgMeaning.CurveIsDeCasteljau` | device_gateway/svg_parser.py:28-49 | A curve point is the one that halving three times at the parameter finds |
| `SvgMeaning.MotionPoints` | device_gateway/svg_parser.py:52-53 | Each point of the result is the drawn one moved to its place with y turned over, rounded, and brought within 200 |
| `SvgMeaning.RelativeToAbsolute` | device_gateway/svg_parser.py:73-190 | At each scale the absolute forms draw the same polyline exactly when no Z closes a subpath that a late lower-case m began away from the origin and no lower-case l is executed away from the origin |
| `SvgMeaning.EarlyMovesSafe` | device_gateway/svg_parser.py:73-190 | With lower-case m only at the start the rewriting is safe at a scale exactly when no lower-case l is executed away from the origin; then the current point is the one SVG 2, section 9.3, prescribes |
| `SvgMeaning.LowerLineIsAbsolute` | device_gateway/svg_parser.py:76-84 | A path whose lower-case l is drawn as an absolute line |
| `SvgMeaning.LateMoveCloses` | device_gateway/svg_parser.py:87-88 | A path whose close goes to the origin instead of the subpath start |
| `SvgMeaning.CurveInBox` | device_gateway/svg_parser.py:28-49 | Every flattened point lies in each box around the control points and the last is exactly the end point |
| `SvgMeaning.QuadIsNotQuadratic` | device_gateway/svg_parser.py:134-153 | Inside the curve one coordinate of a Q meets the prescribed quadratic exactly when the control point lies on the chord at that parameter |
| `SvgMeaning.QuadDrawnAsPrescribed` | device_gateway/svg_parser.py:134-153 | The eight points drawn for a Q are all on the curve that SVG 2, section 9.3, prescribes exactly when its three points coincide |
| `Ledger.SortedIs` | device_workflow/orchestrator.py:163-164 | The stable time sort orders, keeps every event, and leaves an ordered ledger alone |
| `Ledger.SortedIsStable` | device_workflow/orchestrator.py:163-164 | Events of one time keep their order in the ledger |
| `Workflow.WorkflowOrchestrator.AppendEvent` | device_ledger/store.py:63-68 | Appends any event whose id is new and keeps every cached state true |
| `Workflow.WorkflowOrchestrator.EventsOf` | device_ledger/store.py:70-72 | The events of one task in ledger order |
| `Workflow.WorkflowOrchestrator.LastWorkflowState` | device_workflow/orchestrator.py:137-161 | The last workflow state that the replay passes through |
| `Workflow.WorkflowOrchestrator.CurrentState` | device_workflow/orchestrator.py:122-161 | Cached or not, and with events that others append between its two reads of the ledger, the state is that of a full replay at its first or at its second read, and the cache stays right |
| `Workflow.WorkflowOrchestrator.GetHistory` | device_workflow/orchestrator.py:85-104 | The workflow states of the replay without repeats |
| `Workflow.WorkflowOrchestrator.Register` | device_workflow/orchestrator.py:32-58 | One created event for an unknown task, refused otherwise |
| `Workflow.WorkflowOrchestrator.Advance` | device_workflow/orchestrator.py:60-78 | The event of an allowed transition and the replayed state, refused otherwise |
| `Workflow.StateEndsHistory` | device_workflow/orchestrator.py:85-161 | A state is rebuilt exactly when the history is not empty, and it is its last entry |
| `Workflow.ProgressRuns` | device_ledger/projection.py:120-121 | For every ledger: a progress event, the latest of its task, makes the state RUNNING and adds it to the history unless it ends it already |
| `Workflow.AcksShowNothing` | device_ledger/projection.py:118-125 | An acknowledgement, a pause and a resume change the status text and leave state and history alone |
| `Workflow.PhasesShow` | device_ledger/projection.py:126-129 | A motion or terminal event with a workflow phase makes that phase the state and adds it once; with another phase it changes the status text only |
| `Workflow.OthersShowNothing` | device_ledger/projection.py:126-130 | An event without a phase, and one of any other kind, leaves status, state and history alone |
| `Workflow.StartsShow` | device_ledger/projection.py:112-117 | A creation shows the status of its payload, CREATED without one; a dispatch shows DISPATCHED |
| `Workflow.OtherTasksShowNothing` | device_workflow/orchestrator.py:85-161 | Events of another task change neither status nor state nor history of this one |
| `Workflow.HistoryShowsExactly` | device_ledger/projection.py:109-137 | For every ledger, in whatever order of time: the history of a task shows a state exactly when one of its events is a progress, dispatch or creation event of that state, or carries it as status, state or phase |
| `Workflow.AdvancesInto` | device_workflow/state.py:45-61 | From which states an advance to each of the thirteen targets appends an event, and that it appends nothing from any other |
| `Workflow.AdvanceLogs` | device_workflow/orchestrator.py:166-208 | Which event an advance appends: a dispatch for DISPATCHED, a terminal event with its phase for the ends, an update for every other target |
| `Workflow.RunsAreLegal` | device_workflow/state.py:45-61 | For every run of register and advance in time order the history is a walk of the transition table from CREATED that never shows COMPLETED, and the state is its end |
| `Workflow.DispatchNeedsPreparation` | device_workflow/state.py:45-61 | A history that shows DISPATCHED began with CREATED, PLANNED, SIMULATED, perhaps WAITING_APPROVAL, READY_TO_DISPATCH |
| `Workflow.CompletedDoesNotStick` | device_workflow/orchestrator.py:202-208 | An allowed advance reaches its target exactly when that is not COMPLETED; then the state stays and can still fail |
| `Workflow.RawAppend` | device_ledger/projection.py:109-137 | An unguarded append leaves the history a walk exactly when it was one and the new status is no workflow state, the last one again, or one that the table allows next |
| `Workflow.RawLedger` | device_ledger/projection.py:109-137 | The history of a ledger that anyone appends to is a walk exactly when every event, appended to those before it, keeps it one |
| `Workflow.MotionBypassesGuard` | device_ledger/projection.py:109-137 | A raw motion event after which the history is no walk |
| `Idempotency.InProcessClaims.Sweep` | dlc_api/idempotency.py:43-54 | Below the cap nothing; at the cap the expired entries go, then the oldest, until one slot is free |
| `Idempotency.InProcessClaims.Claim` | dlc_api/idempotency.py:57-66 | Refuses a live key, else takes it for the time to live; the table never exceeds 4096 entries |
| `Idempotency.InProcessClaims.Release` | dlc_api/idempotency.py:69-74 | Removes the entry only with its own value |
| `Idempotency.AtMostOneLiveClaim` | dlc_api/idempotency.py:111-194 | On every interleaving, with Redis answering or in production whatever it does: no two claims on a key stand at once, every standing claim holds its key in Redis, no table exceeds its cap |
| `Idempotency.TableBarsExactly` | dlc_api/idempotency.py:57-66 | In every run, with any answers or failures of Redis: a table claim on a worker below its cap is barred exactly when an earlier claim of the key there was let through less than the time to live ago and was neither backed out nor released |
| `Idempotency.ClaimsApart` | dlc_api/idempotency.py:57-74 | So two claims of a key that one worker lets through are a time to live apart, or the earlier one was given back in between |
| `Idempotency.OneWorkerOneWinner` | dlc_api/idempotency.py:111-194 | With any luck, outside production too: two requests that have both won a key on one worker, and not begun to release it, claimed it at least a time to live apart |
| `Idempotency.ReleaseAdmitsTwo` | dlc_api/idempotency.py:120-194 | A run on which a worker that is releasing a claim lets a second one win during an outage, so that two of its claims stand |
| `Idempotency.WinsExactlyWhenNoneStands` | dlc_api/idempotency.py:111-138 | In every run without an outage a SET NX wins exactly when no claim on its key stands |
| `Idempotency.OutageAdmitsTwo` | dlc_api/idempotency.py:120-138 | Outside production an outage lets two workers win one key |
| `RateLimit.RateLimiter.OldestKey` | device_logic/rate_limit.py:64-67 | The key whose last call is furthest back |
| `RateLimit.RateLimiter.IsAllowed` | device_logic/rate_limit.py:54-81 | Serves a key from its own times; a new key in a full table takes the place of the one whose last call is furthest back |
| `RateLimit.RateLimiter.Remaining` | device_logic/rate_limit.py:102-109 | The limit less the recorded calls still in the window |
| `RateLimit.SlidingBound` | device_logic/rate_limit.py:54-81 | For every trace any max + 1 accepted calls in a row span at least a window, so no half-open interval of its length holds more than max |
| `RateLimit.AcceptedIffRemaining` | device_logic/rate_limit.py:54-109 | A call is accepted exactly when fewer than max calls were accepted in the window that ends now, exactly when remaining is positive |
| `RateLimit.CheckKeyed` | rate_limiter.py:82-108 | INCR with EXPIRE on the bucket; accepted while the count before is below the limit |
| `RateLimit.CounterIs` | rate_limiter.py:99-104 | A counter never expires within its bucket: it holds the number of its requests so far |
| `RateLimit.BucketBound` | rate_limiter.py:82-108 | Of the requests in a bucket exactly the first limit are accepted |
| `RateLimit.FixedBound` | rate_limiter.py:82-108 | At most twice the limit is accepted in every half-open interval of window length |
| `RateLimit.BurstDoubles` | rate_limiter.py:85-87 | Around a bucket boundary twice the limit is accepted within an interval as short as one likes |
| `Validation.CheckMoveAbs` | device_gateway/move_validator.py:39-68 | The axis loop of an absolute move computes its closed form |
| `Validation.CheckMoveRel` | device_gateway/move_validator.py:71-95 | The axis loop of a jog computes its closed form |
| `Validation.CopyScalarParams` | device_gateway/path_validator.py:158-166 | The copied scalars do not depend on the order of the keys |
| `Validation.ClampFeed` | device_gateway/path_validator.py:237-246 | The feed of a generated drawing is the number it reads as, brought within 1 to 2000, and 500 for anything unreadable |
| `Validation.MoveAbsResult` | device_gateway/move_validator.py:39-68 | An absolute move validates exactly when each given axis is acceptable and the feed parses, to those numbers |
| `Validation.MoveRelResult` | device_gateway/move_validator.py:71-95 | A jog validates exactly when each step is at most 1 mm, one is not zero, and the feed parses |
| `Validation.ValidatedPath` | device_gateway/path_validator.py:169-234 | A validated drawing task with a path has 1 to 200 acceptable points inside the profile and a feed within the limits |
| `Validation.MotionTask.CapFeed` | device_gateway/profile_constraints.py:33-43 | Cuts a numeric feed above the limit and nothing else |
| `Validation.MotionTask.ApplyProfileConstraints` | device_gateway/profile_constraints.py:46-90 | Cuts path length and feed to the profile, in place |
| `Validation.CreationImpliesGate` | device_gateway/task_creation.py:33-62 | A task of the creation chain passes the pop gate exactly if it is a control task, or the profile allows the least feed and a drawing task has a path; then it meets the profile limits and the gate reads the same path, coordinates and feed |
| `Validation.PathTaskAtGate` | device_gateway/task_creation_builders.py:118-295 | The drawing-task half of that law |
| `Validation.RunPathCreatedIff` | device_gateway/path_validator.py:169-234 | A run_path request becomes a task exactly when its path, cut to the profile, has 1 to 200 points inside the workspace and its feed reads as 1 to 2000; the task has that path and that feed |
| `Validation.GeneratedCreatedIff` | device_gateway/path_validator.py:169-234 | A generated drawing becomes a task exactly when it says what to draw and a path that it brings is drawable |
| `Validation.MoveAbsCreatedIff` | device_gateway/move_validator.py:39-68 | An absolute move becomes a task exactly when its coordinates are numbers inside the workspace and its feed passes |
| `Validation.MoveRelCreatedIff` | device_gateway/move_validator.py:71-95 | A jog becomes a task exactly when its steps are numbers of at most 1 mm, one of them moves, and its feed passes |
| `Validation.GeneratedMade` | device_gateway/path_validator.py:169-246 | A generated drawing is sent as run_path with its path, if it brings one, and the clamped feed, both cut to the profile |
| `Validation.OthersCreatedIff` | device_gateway/path_validator.py:169-216 | Control requests always become tasks, image drawings and unknown capabilities never |
| `Validation.MovesMade` | device_gateway/move_validator.py:39-95 | A move task has exactly the coordinates or steps of its request, zero for a missing one, and the feed cut to the profile |
| `Validation.GateIs` | device_gateway/redis_store_helpers.py:87-108 | The allowlist never refuses what validates: the gate accepts a task exactly when both ids are there and its parameters validate |
| `Validation.CreatedNamesSource` | device_gateway/path_validator.py:106-215 | A created task names the source text that the request gives, or else its own capability |
| `Validation.ScalarsKept` | device_gateway/path_validator.py:158-166 | Which other parameters a drawing task keeps, and where texts are cut |
| `Validation.TextFeedSlipsThrough` | device_intelligence/safety.py:35-37 | The feed of an accepted run_path exceeds the profile after validation exactly when it is a text or missing and asks for more; the profile constraints then cut it |
| `CreatedTasks.CreatedTasksPop` | device_gateway/redis_store_helpers.py:87-108 | A pop of created tasks drops none of them and keeps the service order |

## Left out

- Redis key TTLs other than the limiter bucket and the idempotency claim, connection failures other than those of the
  idempotency calls, undecodable list entries, logging, metrics and artifacts.
- JSON encoding: a task is its own encoding, so two list entries are equal when all their fields are.
- The separate processing-time key of a task: nothing in the repository writes it, so recovery falls back as modelled.
- Aliasing: the in-memory store and its callers share task dictionaries; the model keeps values, so a stamp written through a
  shared dictionary is seen only in the processing entry and the returned task.
- Clock skew: all clients read one clock, as an argument of the operation; a pop at clock reading zero is outside the refinement.
- `requeue_pending_tasks` is outside the refinement of the abstract queue: the two stores differ on it; `Generations` covers it.
- Generations.RedisStampedAck: for tasks whose state existed at the pop and was not created again before the ack.
- CleanRuns.CalmRunsLoseNothing: a sufficient condition on schedules; the exact one is CleanRuns.LostExactlyByCleanUp.
- TaskIndex.ListingAgrees: the two reads of an indexed listing, the member list and the states, are one step.
- Workflow.WorkflowOrchestrator.Advance: nothing is appended between its check of the guard and its own append.
- RedisRefinement.Refines: for runs with schema-valid tasks, events with a phase and ids enqueued only when they are in no list.
- RedisStore.RedisDeviceTaskStore.Pop: the gate is a parameter here; `CreatedTasks` instantiates it.
- Deadlines.RedisRecoverDeadline: for the legal runs of the refinement, so without requeues; `Deadlines.RedisRecoverMoves` is for any store.
- Idempotency.TableBarsExactly: for a table below its cap; at the cap a sweep may drop claims that are still live.
- Workflow.ProgressRuns: for an event that is the latest of its task; an earlier one is replayed at its place in
  time, and what the history then shows is `Workflow.HistoryShowsExactly`.
- Idempotency.AtMostOneLiveClaim: one clock for the workers and Redis, and a request id is used for one claim.
- RateLimit.SlidingBound: for a key that is never evicted or reset, with a clock that does not go back.
- Workspace.Render: the sufficient bound for several passes does not claim that larger offsets fail.
- Non-finite coordinates: the rejection of NaN and infinity is modelled in the validators, not in the path optimiser.
- Extra keys of path points, and floating-point error.
- The stroke font, `decimate_to_max_points`, previews, and letters and digits outside ASCII in SVG paths.
- The text of a source capability that is not a string, and number readings of texts that were cut.
- The route policy, the policy engine, simulation and approval steps of task creation, and the building of parameters.
- Locks of the orchestrator that cannot be acquired, and ledger resets.
- The in-memory IP limiter and keyed limiter beside the fixed buckets, and the sweeps of their tables.
- HTTP routes, sockets, model calls, storage of users and tokens, and the user interface.
