# Job processor: a verified model

A submitted job is a row in Postgres and a message on the Kafka topic `job.requests`. Workers fetch
messages into an in-memory priority queue, execute them, and store the outcome; a failed attempt is
put back on the topic until its retries are used up. A promoter enqueues scheduled jobs when they are
due, a cron loop creates jobs from schedules, an outbox processor performs the side effects of
completed emails, and the API submits, cancels and replays jobs. All of them write the same rows
with unconditional updates. This project models that protocol in Dafny and proves what it keeps.

## How it is built

**One transition system** (`Protocol.dfy` on `Types.dfy` and `Tables.dfy`). Its state is the four
tables, the log, every execution in flight on every worker, the semaphores, and every API call,
promoter tick, cron tick and outbox batch ever begun. One event is one store call, one Kafka call,
one handler call or one semaphore operation. An event names how the call came out: it took effect,
failed without effect, or took effect and lost its reply. Any message may be delivered again at any
time, workers crash, and all actors interleave freely. `WorkOp` and `WorkNext` are the writes and the
control flow of `process` (cmd/worker/main.go:115-223); `CallOp` and `CallNext` are those of `Submit`,
`CancelJob`, `RetryArchivedJob` (internal/api/backend.go:96-274), `promoteDue`
(internal/scheduler/promoter.go:27-46), `runRecurringTick` (internal/scheduler/recurring.go:31-68) and
`runOutboxBatch` (cmd/worker/main.go:321-349).

**Safety over every run** (`Identity`, `Accounting`, `OutboxSafety`, `OutboxOnce`, `Completions`, `NeverEarly`,
`Submission`, `Cancellation`, `Semaphore`, `Recurring`; gathered in `EveryRun`; and `Provenance`): invariants
kept by every event, and what they mean for every reachable state. `Provenance` ties every row and every
message to the request, replay or schedule it comes from.

**Fault-free runs** (`Tokens`, `FaultFree`, `Conservation`, `ApiEffects`, `ListedRows`, `FaultFreeRuns`,
`RetryExact`, `Quiescence`, `Rest`, `RecurringOnce`): no call fails, nothing is redelivered, no worker
crashes or finds its queue paused, promoter ticks do not overlap, nothing is submitted with a run_at
that has already passed, and every max_retry of a submit or a schedule is below 2^31-1; API calls,
single promotions and single firings are one step, while workers interleave at every call. A job may be
cancelled between being listed and being promoted; its promotion goes ahead all the same. Each such run
is proved to be a run of the full system. Here every unfinished job has exactly one live message or
execution, retries are counted exactly, and work comes to rest with every job ended.

**Where guarantees stop, statement by statement** (`Exactness`, `RetryWrap`): for a worker's step with
any outcome, a redelivery, a crash, and a promotion, a submit or a firing with any outcomes and nothing
between their statements, the exact condition under which the job concerned stays in order; and which
max_retry is respected.

**Where guarantees stop, with other actors in between** (`OpenCalls`, `PromotionGap`, `CancelGap`,
`MessageGap`, `ReplayGap`, `CancelledExactly`, `OutboxExactly`): what the hypothesis "one step" of the
fault-free runs leaves out. For a promotion between its message and its write, a cancel between its
lookup and its write, a submit between its insert, its look at the clock and its enqueue, a cron firing
between its insert and its message, and a replay between its message and its row: when the job is in
order afterwards, over all runs in between. Also over all continuations: when a cancelled job stays
cancelled, and when an outbox row is attempted no more than once, however many batches are under way.
`OpenCalls` adds submits and cancels begun and past their lookup to the fault-free runs.

`Witnesses` and `GapWitnesses` hold a reachable state, or a run from one, for each way of losing a
guarantee.

**The code in its own form** (`PostgresStore`, `JobProducer`, `Worker`, `Backend`, `Promoter`,
`RecurringTick`, `OutboxProcessor`): classes whose methods follow the Go methods statement by statement.
`Driving` and `Calls` connect them to the transition system: each method is proved to perform, call by
call, a run of the protocol in which every call is answered as the environment argument says. The
protocol is deterministic once the answers are given, so the contract leaves no other behaviour. Beside that
each contract says, for all answers and without the protocol's own functions, what becomes of the tables and
of the log.

**The consumer** (`PriorityHeap`, `ConsumerMonitor`, `PartitionLog`): Go's `container/heap` over an array,
the mutex and condition variable as a machine of two goroutines split at every statement, and the
offsets of a partition across crashes.

**Smaller pieces** (`PromotionProgress` and `PromotionRuns`, `QueueCounts`, `RateLimit`).

## Model

| member | source | states |
|---|---|---|
| `Accounting.OptionsRoundTrip` | internal/kafkaqueue/producer.go:62-79 | What the worker reads back from a message: the priority as given, a positive max_retry as given and any other as at most zero, so that the budget is max(max_retry, 0) and every decision about an attempt >= 1 is the same, although options are dropped when none of them matters. |
| `Accounting.AccountsStep` | cmd/worker/main.go:191-214 | Every event of every actor keeps each queued attempt within its message's budget and each stored attempt at most one past the budget of some message of the job. |
| `EveryRun.SafeStep` | cmd/worker/main.go:115-223 | The conjunction of all safety invariants is kept by every event: store and Kafka failures, lost replies, redelivery, crashes, and all interleavings. |
| `EveryRun.SafeReachable` | cmd/worker/main.go:115-223 | Every state reachable from an empty system satisfies that conjunction. |
| `EveryRun.AttemptsBounded` | cmd/worker/main.go:191-214 | In every reachable state, 0 <= attempt <= max(max_retry, 0) for each message whose max_retry does not wrap, and each stored attempt is 0 or at most one past the budget of a message of that job. |
| `EveryRun.MessagesCarryTheirJob` | internal/kafkaqueue/producer.go:62-98 | In every reachable state every message, whoever sent it (a submit, a replay, a promoter, a firing or a retry), has the type, payload, queue and priority its job id was allocated with, and those of the job's row when there is one. |
| `Provenance.RowsAreAsAsked` | internal/api/backend.go:96-142 | In every reachable state the row of an id is what the call that allocated it was asked for: of a submit the type, payload, key, priority, queue (the default if none was named) and run_at; of a replay its queue and the archived job's type, payload and priority; of a firing no key, run_at or priority. |
| `Provenance.MessagesAreAsAsked` | internal/kafkaqueue/producer.go:62-98 | In every reachable state a submit's message is a first attempt with the type, payload, queue and priority of its request and budget max(max_retry, 0); a replay's has its queue, the archived job's type, payload and priority, and budget 0; a promoter's has budget 2; and a retry repeats an earlier message of the job with the same budget and the attempt after its own. |
| `Provenance.FiringsAreAsAsked` | internal/scheduler/recurring.go:43-56 | In every reachable state the message of a firing carries the type, payload, queue and max_retry of its schedule, as long as that has not been dropped. |
| `EveryRun.CompletedEmailsAreInOutbox` | cmd/worker/main.go:146-181 | In every reachable state a completed email has an outbox row, every row carries a payload that passes validation, a row marked sent had an attempt that returned no error, a row not unsent had an attempt, and no execution wrote two rows. |
| `EveryRun.NeverBeforeRunAt` | internal/api/backend.go:130-136 | In every reachable state no message exists for a job whose run_at lies in the future, with any number of promoters, retries and redeliveries. |
| `EveryRun.NeverRunsBeforeRunAt` | internal/scheduler/promoter.go:27-45 | In every reachable state no execution exists for a job whose run_at lies in the future. |
| `EveryRun.IdempotentSubmit` | internal/api/backend.go:100-141 | In every reachable state at most one row exists per type, queue and non-empty key; all successful submits of such a triple answered the same id; and submits sent at most one message for it, even when several passed the lookup before any created. |
| `EveryRun.SemaphoreCounts` | cmd/worker/main.go:289-319 | In every reachable state the channel of a type is as long as the number of executions holding it, at most the limit, and not empty when a holder is about to release it. |
| `EveryRun.OutboxRowsOnlyMoveOn` | cmd/worker/main.go:321-349 | With any number of processors, in every continuation of every run an outbox row keeps its contents and its attempts, is marked only after an attempt and as sent only after one without error, and never returns to pending. |
| `OutboxOnce.AttemptedAtMostOnce` | cmd/worker/main.go:321-349 | In every run in which no batch lists rows while another has some left and marks take effect, whatever else fails or interleaves, no row is attempted twice, and a row is unsent exactly while it has not been attempted, but for the one about to be marked. |
| `OutboxExactly.AttemptedOnceExactly` | cmd/worker/main.go:321-349 | From any reachable state, with any number of batches under way: no continuation in which marks take effect and no further batches overlap attempts a row twice, if and only if the row is untried and in the list of at most one batch, or tried once, in nobody's list, and marked or about to be. |
| `OutboxOnce.BatchRemovesExactly` | cmd/worker/main.go:321-349 | In such runs a batch takes exactly min(10, n) of the n unsent rows out of the unsent set, in ascending order of created_at and none created after an unsent row it leaves; all others stay unsent, and so do rows workers append meanwhile. |
| `Completions.OneRowPerCommit` | internal/store/postgres.go:226-254 | In every run a job gains exactly as many outbox rows as completions of it are committed. |
| `EveryRun.CancelledForGood` | cmd/worker/main.go:135-142 | From any reachable state where a job is cancelled, no execution is past the check and no promoter holds it, every continuation keeps the job cancelled and never runs its handler again. |
| `CancelledExactly.CancelledForeverExactly` | cmd/worker/main.go:135-142 | A cancelled job of a reachable state stays cancelled in every continuation if and only if no execution of it is past the check with a status write left and no promoter's list holds it. |
| `Semaphore.ReleaseNeverBlocks` | cmd/worker/main.go:131-134 | The deferred release finds its token in the channel. |
| `Recurring.NoOccurrenceSkipped` | internal/scheduler/recurring.go:31-68 | For any number of replicas, interleavings and failures: next_run_at of a live schedule is the k-th occurrence for some k, every earlier occurrence was enqueued at least once, and none before its time. |
| `RecurringOnce.ExactlyOnce` | internal/scheduler/recurring.go:31-68 | With ticks that do not overlap, no failing call and Next(t) > t, every occurrence before next_run_at was enqueued exactly once and none twice. |
| `FaultFree.FRunIsRun` | cmd/worker/main.go:115-223 | Every fault-free run is a run of the full protocol, so nothing is proved about behaviour the code does not have. |
| `Tokens.TokensWork` | cmd/worker/main.go:115-223 | Every worker step keeps, for every job, at most one token and exactly one while it is unfinished, the attempt the token carries, the statuses it may meet, and the outcomes so far. |
| `FaultFreeRuns.FStep` | cmd/worker/main.go:115-223 | Every fault-free step of every actor keeps the token invariant, promotions of jobs cancelled since they were listed included. |
| `FaultFreeRuns.ListedKeeps` | internal/scheduler/promoter.go:27-46 | While promoter ticks do not overlap, a job that a tick has listed and not come to yet has no message, no execution and no attempt, whatever the other actors do; it is scheduled, or cancelled since. |
| `FaultFreeRuns.OneToken` | cmd/worker/main.go:115-223 | In every fault-free reachable state each pending or processing job, and each failed job of a registered type, has exactly one live message or execution; scheduled, completed and archived jobs have none; no two live executions work for one job. |
| `FaultFreeRuns.FinishedForever` | internal/api/backend.go:184-203 | In fault-free runs, in which a cancel is one step, a completed row never changes, and an archived one does not unless it is cancelled; for a cancel that looked before the completion see `CancelGap.CancelledMeanwhileExactly`. |
| `RetryExact.ExactAccounts` | cmd/worker/main.go:191-222 | A completed job failed exactly `attempt` times and then succeeded, within its budget; an archived one has attempt max(max_retry, 0) + 1 and failed that many times; an email has exactly one outbox row if completed and none otherwise. |
| `RetryExact.AttemptShown` | cmd/worker/main.go:143-222 | In every fault-free reachable state a job that is executed has failed every attempt before the one its message carries, and its row, while processing or failed, shows that attempt, or the next once the failure is stored. |
| `RetryExact.InvoiceCompletesExactly` | internal/jobs/invoice.go:35-51 | A sound invoice told to fail until attempt n ends completed if and only if n <= max(max_retry, 0), and then at attempt max(n, 0). |
| `RetryExact.EmailCompletesExactly` | internal/jobs/email.go:38-47 | An email that has ended is completed if and only if its payload validates, and then at its first attempt. |
| `Types.ValidExactlyWhenTrimmed` | internal/jobs/email.go:38-47 | A payload passes the email validation exactly when it decodes and its recipient is not empty once white space, given by its Unicode code points, is cut off at both ends. |
| `Rest.WorkEnds` | cmd/worker/main.go:183-214 | Once no work is added, deliveries, worker steps and promotions together number at most a measure of the state: attempts left over all live messages and executions, plus a constant per row that is scheduled or listed by a promoter. |
| `Quiescence.NeverStuck` | cmd/worker/main.go:131-134 | While a message or execution is left and no queue is paused, some step is possible, even with full semaphores. |
| `Rest.EveryJobEnds` | cmd/worker/main.go:183-214 | Where no continuation without new work can deliver, execute or promote anything, not even when time passes or queues are unpaused, every job is completed, archived, cancelled, or failed with an unregistered type. |
| `Rest.EndIsReached` | cmd/worker/main.go:183-214 | From every fault-free reachable state some continuation without new work reaches such an end. |
| `Exactness.PausedQueueDropsToken` | cmd/worker/main.go:124-130 | The worker's look at the queue gives up the job's only token if and only if the queue is paused, and leaves the row as it was. |
| `Exactness.FailedRetryLosesToken` | cmd/worker/main.go:194-206 | A failed job whose retry is being enqueued is left without a token if and only if that enqueue has no effect; its row does not say so. |
| `Exactness.WorkerStepKeepsOrderExactly` | cmd/worker/main.go:124-222 | For every call of `process` and every outcome, from every fault-free reachable state: the step keeps its job in order if and only if the table over call, outcome, pause and cancellation says so (a failed GetQueue, GetByID, retry or archive loses the token of a job not cancelled; any other status write or the outbox transaction must take effect). |
| `Exactness.RedeliveryKeepsOrderExactly` | internal/kafkaqueue/consumer.go:127-169 | Delivering a message again leaves its job at most one token if and only if it had none left, and in order if and only if it was also cancelled with as many failures as the message counts. |
| `Exactness.CrashKeepsOrderExactly` | cmd/worker/main.go:115-223 | A crash keeps all jobs in order if and only if the worker was executing none that is not cancelled. |
| `Exactness.PromotionKeepsOrderExactly` | internal/scheduler/promoter.go:34-45 | With nothing between its two statements, for any list and any outcomes, promoting a job leaves it in order if and only if the enqueue had no effect, or the job had no token and no attempt and either the enqueue reported success and the write took effect or the job is cancelled. |
| `PromotionGap.PromotedMeanwhileExactly` | internal/scheduler/promoter.go:35-42 | Whatever fault-free events come between the message of a promotion and its write, cancels of the job included: if the write takes effect, everything is in order afterwards if and only if the job's message is still in the log or its execution has not passed its first status write; if it fails, if and only if the row no longer says scheduled. |
| `Exactness.FiringKeepsOrderExactly` | internal/scheduler/recurring.go:45-60 | With nothing between its two statements, a cron firing that creates a row leaves the job in order if and only if the insert reported no error and the enqueue took effect. |
| `MessageGap.FiringMeanwhileExactly` | internal/scheduler/recurring.go:45-60 | Whatever happens between the insert of a cron firing and its enqueue, failures, redelivery and crashes included: the new job is in order afterwards if and only if the enqueue took effect or the job has been cancelled. |
| `CancelGap.CancelledMeanwhileExactly` | internal/api/backend.go:184-203 | Whatever fault-free events come between the lookup of a cancel and its write: everything is in order afterwards and no job with a successful attempt is called cancelled, if and only if the row is neither processing nor completed at the write; a completed row loses its completion time. |
| `OpenCalls.OInvReachable` | internal/api/backend.go:96-203 | The invariant of fault-free runs also holds with any number of submits and cancels begun and past their lookup. |
| `ReplayGap.ReplayedTokenExactly` | internal/api/backend.go:261-273 | Whatever happens between the message of a replay and its row: the row appears pending, and has a token if and only if its message has not been used up; if it has, no continuation ever runs the job or changes its status but to cancelled, unless that message is delivered again. |
| `RetryWrap.RetriesBoundedExactly` | cmd/worker/main.go:194-206 | For every int32 max_retry: in all runs every message with it has 0 <= attempt <= max(max_retry, 0) if and only if it is not 2^31-1. |
| `RetryWrap.RetriesNeverEnd` | cmd/worker/main.go:194-206 | With max_retry 2^31-1 and a handler that always fails, one submit leads to a run with any number of retries. |
| `Witnesses.PausedQueueLosesJob` | cmd/worker/main.go:128-130 | A fault-free reachable state in which a pause makes the worker drop the only message of a pending job. |
| `Witnesses.FailedRetryLosesJob` | cmd/worker/main.go:203-206 | A fault-free reachable state in which a failed retry leaves a failed job without a token. |
| `Witnesses.FailedWriteLeavesRowBehind` | cmd/worker/main.go:142 | A fault-free reachable state in which a failed status write leaves the row behind its execution. |
| `Witnesses.CancelledTooLate` | cmd/worker/main.go:135-142 | A fault-free reachable state with a cancelled job that need not stay cancelled. |
| `Witnesses.RedeliveryDoubles` | internal/kafkaqueue/consumer.go:127-169 | A fault-free reachable state in which a redelivery makes two executions of one job. |
| `Witnesses.CrashLosesJob` | cmd/worker/main.go:115-223 | A fault-free reachable state in which a crash leaves a job without a token. |
| `Witnesses.OverdueSubmitIsEnqueued` | internal/api/backend.go:113-136 | A reachable submit with 0 < run_at <= now whose job is enqueued and still scheduled. |
| `Witnesses.FailedSubmitLosesJob` | internal/api/backend.go:136-138 | A reachable submit whose failing enqueue leaves a pending row without a token. |
| `Witnesses.FailedFiringLosesJob` | internal/scheduler/recurring.go:57-60 | A reachable cron tick whose failing enqueue leaves a pending row without a message. |
| `Witnesses.OverlappingTicksDouble` | internal/scheduler/promoter.go:27-46 | A run in which two overlapping promoter ticks send two messages for one job. |
| `Witnesses.ReplayOvertaken` | internal/api/backend.go:261-273 | A run in which the message of a replay is executed to its end before the row exists. |
| `GapWitnesses.PromotedAfterCompletion` | internal/scheduler/promoter.go:35-42 | A run without failures in which a job is executed between its promotion's message and write, and ends pending without a token. |
| `GapWitnesses.CancelledAfterCompletion` | internal/api/backend.go:184-203 | A run without failures in which an email is completed between the lookup and the write of a cancel, and ends cancelled with its completion time cleared. |
| `GapWitnesses.SubmitOvertakenByClock` | internal/api/backend.go:113-138 | A submit whose run_at comes between its insert and its look at the clock: its job is enqueued and still scheduled. |
| `GapWitnesses.OverlappingBatchesDouble` | cmd/worker/main.go:262 | A run in which two batches overlap, every call goes through, and one outbox row is attempted twice. |
| `GapWitnesses.FailedMarkDoubles` | cmd/worker/main.go:341-347 | A reachable state in which a row can only be attempted again once its mark fails. |
| `Exactness.SubmitKeepsOrderExactly` | internal/api/backend.go:113-136 | With nothing between its statements, for all outcomes of insert and enqueue: a submit that creates a row leaves the job in order if and only if its message is sent exactly when it has no run_at; with both calls going through, if and only if not 0 < run_at <= now. |
| `MessageGap.SubmitWithoutRunAtExactly` | internal/api/backend.go:113-138 | Whatever happens between the insert of a submit without run_at, its look at the clock and its enqueue, failures, redelivery and crashes included: the new job is in order afterwards if and only if the enqueue took effect or the job has been cancelled. |
| `MessageGap.SubmitWithRunAtExactly` | internal/api/backend.go:113-138 | Whatever fault-free events come in between for a submit with a run_at: if the time has not come when it looks at the clock, it sends nothing and everything is in order; if it has, its message leaves the job in order if and only if the job is cancelled and nothing has been sent or tried for it. |
| `Exactness.FailedEnqueueIsFinal` | internal/api/backend.go:103-138 | If the enqueue of a submit has no effect, no submit ever sends a message for that job in any continuation, and every later submit of its key that succeeds answers with that job's id. |
| `PostgresStore.SelectSmallest` | internal/store/postgres.go:170-206 | The answer to an ordered, limited SELECT: min(limit, n) distinct rows in ascending order, none above a row left out. |
| `PostgresStore.Store.Create` | internal/store/postgres.go:40-69 | Inserts exactly if no row has the id and, for a non-empty key, none has the same type, queue and key; reports exactly that, and keeps keys unique. |
| `PostgresStore.Store.GetByIdempotencyKey` | internal/store/postgres.go:100-128 | Finds the row of the triple if there is one, and reports none only if there is none; an empty key finds nothing. |
| `PostgresStore.Store.UpdateStatus` | internal/store/postgres.go:209-223 | Sets status, attempt and completion time of the row if it exists, whatever its status was; other rows stay. |
| `PostgresStore.Store.CompleteJobWithOutbox` | internal/store/postgres.go:226-254 | On each of its early returns both tables are unchanged; once committed the job is completed and exactly one row appended, also when the reply is lost. |
| `PostgresStore.Store.ListScheduledDue` | internal/store/postgres.go:170-206 | The scheduled rows with 0 < run_at <= now, in ascending order of run_at and as they are now: all of them if there are no more than the limit, and otherwise as many as the limit, none later than one left out. A limit outside 1..500 counts as 100. |
| `PostgresStore.Store.ListSchedulesDue` | internal/store/postgres.go:474-493 | The schedules with next_run_at <= now, in ascending order of next_run_at: all of them if there are no more than the limit, and otherwise as many as the limit, none later than one left out. A limit outside 1..100 counts as 20. |
| `PostgresStore.Store.ListPendingOutbox` | internal/store/postgres.go:257-280 | The unsent rows in ascending order of created_at: all of them if there are no more than the limit, and otherwise as many as the limit, none created after one left out. A limit outside 1..100 counts as 20. |
| `PostgresStore.Store.UpdateOutboxStatus` | internal/store/postgres.go:283-292 | Sets the status of one row; others stay. |
| `PostgresStore.Store.UpdateScheduleNextRun` | internal/store/postgres.go:496-499 | Sets next_run_at of one schedule if it still exists. |
| `JobProducer.Producer.Enqueue` | internal/kafkaqueue/producer.go:62-98 | Appends exactly one message with its arguments, without options exactly if max_retry and run_at are not positive and the priority is 0; or, failing, leaves the log as it was. |
| `Worker.ConcurrencyLimiter.Acquire` | cmd/worker/main.go:311-314 | Adds one to the channel of its type, made on first use, and to no other; on a full channel it has not happened and the caller waits. |
| `Worker.ConcurrencyLimiter.Release` | cmd/worker/main.go:316-319 | Takes one from the channel of its type and from no other. |
| `Worker.Worker.Process` | cmd/worker/main.go:115-223 | Performs, call by call, a run of the protocol with every call answered as given, from the start of its execution to its end, or to the Acquire of a full channel, which is where it waits. For all outcomes of its calls, written out in terms of the tables and the log: a paused queue drops the message and a cancelled job is left alone; a valid email and its outbox row are written together or not at all; an unknown type is failed for good; a success completes the job; a failed attempt n is stored as n + 1 on an int32 and, whether or not that write took effect, followed by a message that repeats this one, its queue and priority included, with that attempt while it is within max_retry, and by archiving otherwise. It returns an error exactly when the queue lookup, the job lookup or the outbox transaction of a valid email fails; every channel is as long as before on every exit. |
| `Worker.Worker.FailAttempt` | cmd/worker/main.go:191-214 | For all outcomes of its calls: stores the failure with the next attempt, then sends the same message with that attempt while it is within max_retry, and archives otherwise; an error of one call keeps none of the others from being made. |
| `Backend.KafkaPostgresBackend.Submit` | internal/api/backend.go:96-142 | Performs a complete submit of the protocol with the given answers. Written out for all of them: no type or a failing key lookup is refused with nothing written; a taken key answers the id of a row that has it; otherwise a new id gets the row of the request, scheduled exactly if run_at is positive, and, unless its run_at is yet to come or the insert was not reported, a first message with the request's queue, priority and max_retry; the id is returned exactly if both went through. |
| `Backend.KafkaPostgresBackend.CancelJob` | internal/api/backend.go:184-203 | Performs a complete cancel of the protocol: a row that exists and is neither completed nor processing becomes cancelled, attempt 0 and without completion time, unless the write fails; everything else stays, and success is reported exactly if the row qualified and both calls went through. |
| `Backend.KafkaPostgresBackend.RetryArchivedJob` | internal/api/backend.go:244-274 | Performs a complete replay of the protocol: only for an archived job, a message under a new id with the job's type, payload and priority, budget 0 and the queue asked for, and then, if no error was reported, its pending row; success exactly if both went through. |
| `Backend.OwnerFound` | internal/api/backend.go:103-111 | Keys being unique, the row the lookup finds is the one row that owns the key. |
| `Promoter.RunPromoter.PromoteDue` | internal/scheduler/promoter.go:27-46 | Performs a complete tick of the protocol over the at most 50 due jobs of least run_at. For all outcomes: exactly the listed jobs enqueued without error and written become pending, all else in their rows and every other row unchanged; and exactly one message goes out for each listed job whose enqueue takes effect, in order. |
| `Promoter.TickPends` | internal/scheduler/promoter.go:34-45 | A tick makes pending exactly the listed jobs whose enqueue succeeded and whose write took effect; nothing else in the table changes. |
| `PromotionProgress.TickPromotes` | internal/scheduler/promoter.go:27-46 | A fault-free tick promotes exactly min(50, n) of n due jobs, none later than a due job it leaves. |
| `PromotionRuns.TickRuns` | internal/scheduler/promoter.go:27-46 | From any state a promoter tick that goes through with nothing in between is a legal run of the protocol and makes pending exactly the rows it lists. |
| `PromotionRuns.PromotedInTimeOnRuns` | internal/store/postgres.go:170-206 | In every run of the protocol made of such ticks and any events between them that leave the job alone and give it no new rival, a due job with r rivals sees at most floor(r/50) + 1 ticks, and the last of that many promotes it. |
| `RecurringTick.RunRecurring.Tick` | internal/scheduler/recurring.go:31-68 | Performs a complete cron tick of the protocol over the at most 50 schedules of least next_run_at <= now, in a run that `NoOccurrenceSkipped` and `ExactlyOnce` apply to. For all outcomes: a listed schedule whose calls go through moves to the occurrence after its own next_run_at, and every other schedule is as it was; each insert that takes effect makes one pending job of the schedule beside the jobs there were; and each firing then enqueued has one message for its job and its next_run_at. |
| `OutboxProcessor.Processor.RunOutboxBatch` | cmd/worker/main.go:321-349 | Performs a complete batch of the protocol over at most 10 unsent rows in ascending order of created_at, none created after an unsent row left out. Each of them gains one attempt, which for another type than email succeeds, and is marked sent or failed by it unless the mark has no effect; every other row is as it was. A listed row stays unsent if and only if its mark had no effect, and when all marks take effect exactly the listed rows leave the unsent set. |
| `OutboxProcessor.BatchTouches` | cmd/worker/main.go:327-348 | Each listed row is attempted exactly once and marked by its outcome unless that write has no effect; every other row is as it was. |
| `PriorityHeap.SiftUp` | internal/kafkaqueue/consumer.go:40-41 | One turn of container/heap's `up` moves the only defect of the heap to the parent. |
| `PriorityHeap.SiftDown` | internal/kafkaqueue/consumer.go:40-41 | One turn of container/heap's `down` moves the only defect of the heap to the more urgent child. |
| `PriorityHeap.FrontIsMost` | internal/kafkaqueue/consumer.go:37-40 | The front of a heap has a message priority no item exceeds. |
| `PriorityHeap.PriorityQueue.Push` | internal/kafkaqueue/consumer.go:56-61 | Adds exactly the item and keeps the heap. |
| `PriorityHeap.PriorityQueue.Pop` | internal/kafkaqueue/consumer.go:70-84 | Takes out an item of highest priority, leaving exactly the others in a heap; with nothing queued it reports closed when draining or cancelled, and waits otherwise. |
| `PriorityHeap.PriorityQueue.DispatchAll` | internal/kafkaqueue/consumer.go:145-149 | When draining, the dispatch loop hands out a non-increasing permutation of what was queued. |
| `ConsumerMonitor.EveryInterleaving` | internal/kafkaqueue/consumer.go:56-84 | In every interleaving: fetched = queued + leaving + dispatched + in the fetcher's hand + rejected; the mutex excludes; the dispatcher is parked with an item or the drain flag present only while its signal is the fetcher's next statement; and a message leaving the queue has none of higher priority in it until it is started. |
| `ConsumerMonitor.DrainExitIsComplete` | internal/kafkaqueue/consumer.go:115-149 | If `Pop` reported false because drain was set, everything pushed was dispatched, and whatever follows nothing more is fetched or dispatched. |
| `ConsumerMonitor.DrainingGoesOn` | internal/kafkaqueue/consumer.go:70-84 | Once the fetcher has returned, the dispatcher has a step to take until it is done. |
| `ConsumerMonitor.DrainingEnds` | internal/kafkaqueue/consumer.go:70-84 | Each of those steps lowers a measure, so draining ends. |
| `ConsumerMonitor.DrainsInOrder` | internal/kafkaqueue/consumer.go:70-84 | In every interleaving, whatever is started after the fetcher has returned is started in non-increasing priority. |
| `ConsumerMonitor.NoDeadlock` | internal/kafkaqueue/consumer.go:56-84 | While an item or the drain flag is there and the dispatcher has not quit, one of the goroutines can step without fetching. |
| `ConsumerMonitor.AfterCancelNothingStarts` | internal/kafkaqueue/consumer.go:77-79 | After a quit by cancellation nothing more is dispatched, whatever is still pushed. |
| `ConsumerMonitor.CancelAbandonsMessage` | internal/kafkaqueue/consumer.go:122-142 | A run in which cancellation makes the dispatcher quit while the fetcher still holds a message. |
| `PartitionLog.CommittedIsDoneOrOvertaken` | internal/kafkaqueue/consumer.go:127-169 | In every run, crashes included, each offset below the committed one was processed or rejected, or was outstanding when a higher offset was committed. |
| `PartitionLog.NothingLost` | internal/kafkaqueue/consumer.go:150-169 | In a run without overtaking every message is done, held or still to be fetched, also right after a restart. |
| `PartitionLog.RestartLoses` | internal/kafkaqueue/consumer.go:163-169 | A restart loses exactly the messages below the committed offset that are not done, and loses one only if the run overtook. |
| `PartitionLog.CommittedIsLast` | internal/kafkaqueue/consumer.go:163-169 | The committed offset is the one after the message of the last commit that succeeded, even where an earlier one lay higher, and a restarted consumer fetches from there. |
| `PartitionLog.OvertakingLoses` | internal/kafkaqueue/consumer.go:150-169 | A run of two messages in which the later commits first and a crash loses the earlier. |
| `QueueCounts.ListQueues` | internal/store/postgres.go:353-411 | Exactly one entry for each queue that has jobs or a row of its own, every counter equal to the number of jobs of that queue and status, and the paused flag of the table. |
| `QueueCounts.CountersAddUp` | internal/store/postgres.go:397-408 | All counters together with the completed and the cancelled jobs add up to the number of rows. |
| `RateLimit.TokenBucketLimiter.Allow` | internal/api/ratelimit.go:61-73 | The decision, a Retry-After of 60 for a refusal, and the new buckets, for the queue named or the default queue: they are those of the specification the rows below speak of. |
| `RateLimit.QueueAdmissionBound` | internal/api/ratelimit.go:24-73 | After any history, in any window of T seconds the accepted submits of one queue are at most p/6 + p*T/60 for p >= 60, 10 + p*T/60 for 10 <= p < 60, and p + p*T/60 below that (p/6 rounded down). |
| `RateLimit.GlobalAdmissionBound` | internal/api/ratelimit.go:24-73 | After any history, in any window of T seconds the accepted submits in all are at most g/6 + g*T/60 for g >= 60, 10 + g*T/60 for 10 <= g < 60, and g + g*T/60 below that. |
| `RateLimit.QueueBurstExactly` | internal/api/ratelimit.go:36-58 | Of n submits of one queue at one instant, among any submits of other queues, on a fresh limiter without a global limit exactly min(n, p/6) are accepted for p >= 60, min(n, 10) for 10 <= p < 60, min(n, p) for 0 < p < 10, and all n without a limit. |
| `RateLimit.GlobalBurstExactly` | internal/api/ratelimit.go:24-44 | Of n submits at one instant on a fresh limiter with a global limit g only, exactly min(n, g/6), min(n, 10) or min(n, g) are accepted, by the same cases. |
| `RateLimit.RefusalCosts` | internal/api/ratelimit.go:61-73 | A submit refused for want of a global token changes no bucket; one refused by its queue has cost a global token and none of the queue. |
| `RateLimit.QueuesAreIndependent` | internal/api/ratelimit.go:46-73 | Without a global limit the decisions on a queue are those it would get if its requests came alone. |
| `RateLimit.IdleQueueIsAdmitted` | internal/api/ratelimit.go:36-58 | Without a global limit a queue left alone for 60/p seconds is let in. |

Where the code and its documentation part, the code is followed:

- docs/DEMO_ALL_FEATURES.md:114 says that jobs of a paused queue wait until it is unpaused. The code drops
  their messages (`Exactness.PausedQueueDropsToken`).
- docs/ARCHITECTURE_FINTECH_PLAN.md:200 promises exactly-once side effects through the outbox. There is one row
  per committed completion (`Completions.OneRowPerCommit`), but a row is attempted twice when two batches
  overlap, with every call going through (`GapWitnesses.OverlappingBatchesDouble`): each worker runs its own
  processor (cmd/worker/main.go:262), and deploy/kubernetes/job-worker.yaml:11 deploys two. It is also attempted
  again when marking it failed (`GapWitnesses.FailedMarkDoubles`). `OutboxExactly.AttemptedOnceExactly` says
  exactly when neither can happen.
- docs/HOW_TO_USE.md:133 says that pausing is not supported. It is, and it is modelled.

## Left out

- HTTP routing, JSON encoding, the dashboard, the demo services and the command line client: they only call the operations above.
- Handler bodies: a handler is any outcome, except for the invoice's attempt gate and the email's validation; payloads are seen through the two decoders that matter.
- `last_error`, `created_at` and `updated_at` of a row, the event stream, metrics and tracing: no decision depends on them (the outbox orders by its own created_at, which is modelled).
- The cron parser: `Next` is a parameter, with Next(t) > t as a hypothesis of the exactly-once result; every stored expression is taken to parse, since `CreateSchedule` checks it.
- `CreateSchedule`, pausing a queue and dropping a schedule are single events that add or change one row; their argument checks and the uniqueness of schedule names are not modelled.
- Kafka and Postgres internals: one log whose messages may be delivered any time and any number of times (group rebalancing is such a redelivery), statements that are atomic, one monotone clock read by all.
- The offsets of other partitions: `PartitionLog` is one partition, and partitions do not affect each other.
- The producer gives a replay its id inside `Enqueue`; here the backend asks for it just before the call.
- Job ids are numbers given out once; collisions of random ids and the empty-id checks of the API are not modelled.
- The methods of `Worker`, `Backend`, `Promoter`, `RecurringTick` and `OutboxProcessor` run alone; their interleavings are those of the protocol they are proved to follow. A full limiter blocks there; here `Process` ends at the Acquire and reports that it waits.
- The order among due rows with equal keys, among equal priorities in the heap, and among the entries of `ListQueues` is left open, as in the code.
- Rounding of token counts and of waiting times in `rate.Limiter`: tokens and times are real numbers.
- Integer widths other than the int32 attempt: clocks, offsets, counters and limits are unbounded.
- `List`, `ListArchived`, `GetStatus`, ingestion from Kafka and the fake payload generator: they add only easy members.
