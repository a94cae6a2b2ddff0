# Jobs Processing System: a verified model

A Dafny model of the job pipeline: the API (`internal/api`), the scheduler (`internal/scheduler`), the Kafka
producer and consumer (`internal/kafkaqueue`), the Postgres store (`internal/store`) and the worker
(`cmd/worker`). It states what the parts guarantee together, over whole runs, and proves it with the verifier.
`dafny verify dfyconfig.toml` checks all of it.

## How it is built

**Fine-grained protocol** (`Protocol.dfy`). Every call of the store, the producer, the clock or a handler is a
step of its own, and the steps of any number of API, promoter and worker threads interleave. A message may be
delivered any number of times. A write may fail, and one that fails may still have taken effect. The properties
in `Agreement`, `Lineage`, `Idempotency`, `Guards`, `Finality`, `Completion`, `PromoterOrder` and `PromoterRate` hold of
these runs.

**Lifecycle** (`Lifecycle.dfy`). API calls, promoter ticks, and the start and the finish of a worker's processing
are each atomic; status writes succeed and nothing is delivered twice. `LifecycleRefines` shows that each of its
runs is a run of the fine-grained protocol, and one without failures a run without failures. Single flight, sticky outcomes and the way attempts end are proved
here (`Outcomes`, `Retrying`, `PromoterTicks`), because they do not hold of the fine-grained runs: `Finality` has
the exact condition under which a cancellation is final, and `Completion` the one for completions, which
redelivery takes back altogether.

**Code over shared state** (`Cluster.dfy`, `Services.dfy`, `Schedules.dfy`). The tables and the log are fields of a
class. The contract of each store or producer call says that at some moment the call got its reply and had its
effect, and that the system moved by some run of the protocol before and after. Submit, CancelJob, RetryArchivedJob,
promoteDue and the worker's `process` are written over these calls. Each leaves its thread where the automaton's
ends, whatever the others do meanwhile; and unless one of its calls returned an error (`faults` counts them), the
thread itself made the writes and sends that it is for, with these very arguments, and they succeeded (`Made`). Where a
decision rests on a reply, the contract names the reply that the thread got (`Got`), and where the code ignores an error,
the calls it goes on to make (`Called`). What they leave in the rows, the log and the outbox is `Protocol.MadeShows`. In `Schedules` and `Outbox`, other writers of the same table move between
any two calls.

**The other components.** `Heap` and `Consumer`: the in-place binary heap, the fetcher, the popper, drain, commits and
crashes. `Outbox`: batches of the outbox processor. `Delivery`: e-mail from its job to its handling. `Recurring`,
`RecurringRate`, `Schedules`: cron schedules.
`Limiter`: the per-type semaphores. `RateLimit`: the two token buckets, in exact integers.

The handlers, the e-mail check (`Env.validEmail`), the cron library (`Cron`), the clock, UUIDs and the outcome of each
write are parameters or arbitrary. int32 attempts wrap as in Go.

Where code and documentation differ the model follows the code. The feature list of the repository's README.md says that
pausing a queue is not supported; the code pauses, and a message consumed meanwhile is dropped. The comment on
`RunConsumer` says that higher priorities are processed first, which holds of what the queue holds at a time.
Its drain waits for the queue to be empty, not for the goroutines. The schema calls the outbox exactly-once; a failed
status update makes it handle the row again.

## Model

| member | source | states |
|---|---|---|
| Jobs.NewMessage | internal/kafkaqueue/producer.go:62-79 | leaving out the options keeps priority and every retry decision |
| Jobs.RetryMessage | cmd/worker/main.go:208-222 | a retry carries the same retry limit on |
| Jobs.Inc | cmd/worker/main.go:210 | the next attempt is larger except at the largest int32, where it wraps |
| Query.Select | internal/store/postgres.go:170-180 | the answer of an ORDER BY ... LIMIT query: no candidate outside ranks before one inside |
| Query.ListingTakesFirst | internal/store/postgres.go:170-180 | of the candidates up to a bound, a listing takes the limit or all |
| Protocol.ReachGrows | internal/kafkaqueue/producer.go:92-97 | no run takes a message off the log, deletes a row or a mail, or turns the clock back |
| Protocol.MadeShows | internal/store/postgres.go:209-254 | a thread's successful write shows at its moment in an existing row, and its message or mail stays, whatever the others do |
| Protocol.GotShows | internal/store/postgres.go:72-97 | what a thread read was so at that moment |
| Guards.PausedIsDropped | cmd/worker/main.go:129-140 | a message delivered while its queue is and stays paused is dropped: its worker never gets past that look, whatever else happens |
| Guards.TakenKeyIsFound | internal/api/backend.go:107-115 | a submission whose key is taken only ever answers with that job or an error, and inserts nothing |
| Guards.LookupFinds | internal/store/postgres.go:100-128 | a lookup that does not fail finds the row that was there before |
| Guards.BusyIsNotCancelled | internal/api/backend.go:199-207 | while a job is completed or being processed its cancellation never gets to the write |
| Guards.UnarchivedIsNotReplayed | internal/api/backend.go:262-271 | a job that is not archived is never replayed |
| Guards.PendingOnlyWhenSent | internal/scheduler/promoter.go:34-43 | the promoter sets a job "pending" only when its message, with limit 2, is on the log |
| Guards.CreatedStays | internal/store/postgres.go:40-62 | a row once created stays, a row of that job |
| Agreement.EveryMessageMatchesItsRow | internal/api/backend.go:121-141 | every message ever sent has an existing row with equal type, payload, queue and priority, and is due |
| Agreement.NoEarlyStart | internal/scheduler/promoter.go:27-46 | the worker takes no step for a job before its run time |
| Agreement.NeverScheduledAgain | internal/api/backend.go:116-133 | rows are never deleted, keep their job, and never return to "scheduled" |
| Agreement.ReplyEstablishes | cmd/worker/main.go:129-241 | what a thread may rely on after each call, whatever the others do |
| Agreement.StepKeepsInv | internal/store/postgres.go:40-62 | every step of every thread keeps messages and rows in agreement |
| Lineage.EveryAttemptWasEarned | cmd/worker/main.go:208-222 | a message at attempt a has a failed message at each lower attempt behind it, and a <= max(0, R) |
| Lineage.ArchivedOnlyAfterAllAttemptsFailed | cmd/worker/main.go:223-229 | "archived" is written with attempt max(0, R) + 1, after that many distinct failures |
| Lineage.RetriedEmailNeverCompletes | cmd/worker/main.go:157-182 | an e-mail message past attempt 0 has an invalid payload and only ever fails |
| Lineage.StepKeepsInv | cmd/worker/main.go:157-231 | every step keeps the failure history, also under redelivery |
| Idempotency.OneRowPerKey | deploy/postgres/schema.sql:25 | at most one row per type, queue and non-empty key |
| Idempotency.SameKeySameJob | internal/api/backend.go:104-133 | any two successful submissions with equal type, queue and key return the same job |
| Idempotency.StepKeepsKnowledge | internal/api/backend.go:107-133 | lookup, insert and enqueue of racing submissions keep what each knows |
| Finality.CancellationIsFinalExactlyWhen | cmd/worker/main.go:145-152 | a cancelled job stays so in every future if and only if no thread holds an older reading of it |
| Finality.WorkerOverwrites | cmd/worker/main.go:145-238 | a worker past its status check can overwrite "cancelled" |
| Finality.PromoterOverwrites | internal/scheduler/promoter.go:34-43 | a promoter whose batch holds the job can overwrite "cancelled" |
| Completion.NoCompletionIsFinal | cmd/worker/main.go:145-152 | after any run, a completed or archived job can be processed again, by a redelivery |
| Completion.CompletionIsFinalExactlyWhen | cmd/worker/main.go:129-241 | if no message is delivered twice, a completion lasts in every future if and only if nothing of the job is left over: no undelivered message, no thread that may send one or write another status |
| Completion.StepKeepsCompleted | cmd/worker/main.go:129-241 | with nothing left over, every step keeps it so |
| Completion.LeftOverTakesBack | internal/scheduler/promoter.go:34-43 | from anything left over a run takes the completion back |
| Completion.StepKeepsSent | cmd/worker/main.go:152-238 | a job that is or was worked on has a message on the log |
| Completion.CompletionUndone | internal/scheduler/promoter.go:35-40 | a witness: the promoter's late write takes a completed job back to "pending" |
| PromoterOrder.PromotionsAreSorted | internal/scheduler/promoter.go:27-46 | over the whole run one promoter enqueues in order of run time |
| PromoterRate.TicksClearTheDue | internal/scheduler/promoter.go:27-46 | from any reachable state on, n due jobs are in the batch or out of "scheduled" after ceil(n / 50) listings, and all out when the batch is through, with every other step interleaved |
| PromoterRate.StepClears | internal/store/postgres.go:170-180 | what is due by a past time and in no batch only gets fewer, and by 50 at each listing |
| PromoterOrder.PromoterStep | internal/scheduler/promoter.go:34-45 | the promoter's own steps keep that order |
| PromoterOrder.ListedInOrder | internal/store/postgres.go:174-180 | a due listing is in order and before everything it leaves |
| Lifecycle.EventKeepsInv | cmd/worker/main.go:145-241 | every event keeps: one live message per job, its attempt and row status, results so far, mails |
| Lifecycle.StartKeeps | cmd/worker/main.go:125-152 | so does the start of processing |
| Lifecycle.SucceedKeeps | cmd/worker/main.go:183-195 | so does a success |
| Lifecycle.FailKeeps | cmd/worker/main.go:208-231 | so does a failure, retried or archived |
| Lifecycle.RejectKeeps | cmd/worker/main.go:197-204 | so does an unknown type |
| Lifecycle.SubmitKeeps | internal/api/backend.go:100-153 | so does a submission that is not late |
| Lifecycle.CancelKeeps | internal/api/backend.go:195-214 | so does a cancellation |
| Lifecycle.LaunchKeeps | internal/api/backend.go:278-297 | so does a replay |
| Lifecycle.PromoteKeeps | internal/scheduler/promoter.go:34-45 | so does a promoter tick, sends failing or not |
| Outcomes.SingleFlightAlways | cmd/worker/main.go:145-241 | at most one live message per job; a row is "processing" exactly while its message is in flight |
| Outcomes.OutcomesStick | internal/api/backend.go:195-214 | "completed" and "cancelled" are never left, "archived" only for "cancelled" |
| Outcomes.StuckExactlyWhenLeftBehind | cmd/worker/main.go:125-241 | a waiting row has no live message exactly if it was left behind; a scheduled one stays selectable |
| Outcomes.LeftBehindExactlyWhen | cmd/worker/main.go:133-140 | without failures, a job is left behind if and only if some event consumes its message under a paused queue or without a handler |
| Outcomes.WaitsInVainExactlyWhen | cmd/worker/main.go:125-207 | over whole runs without failures, a waiting job has no live message if and only if such an event happened to it |
| Outcomes.AttemptsEnd | cmd/worker/main.go:207-241 | a job that is over completed at its first success i <= max(0, R), or is archived after max(0, R) + 1 failures |
| Outcomes.SubmittedJobEnds | internal/api/backend.go:141-152 | the same from a submission on, for the retry limit submitted |
| Outcomes.BudgetStaysOverRun | internal/kafkaqueue/producer.go:73-79 | the retry limit of a job survives every re-enqueue |
| Outcomes.OneMailPerCompletedJob | cmd/worker/main.go:183-195 | an e-mail job is completed exactly if one outbox row is for it, with its own, valid payload |
| Delivery.CompletedMailIsHandledOnce | cmd/worker/main.go:365-393 | a completed e-mail job is handled exactly once when updates succeed, with its own, valid payload, and no other job at all |
| Retrying.ConsumingLowersTheTotal | cmd/worker/main.go:207-241 | the attempts still open, summed over live messages, fall with each message consumed |
| Retrying.RetryingEnds | cmd/worker/main.go:208-231 | without new work, handlers run at most as often as that sum |
| Retrying.RetryingCanEndExactlyWhen | cmd/worker/main.go:208-231 | from any reachable state, a job with a live message can come to be archived if and only if it is not cancelled, its handler can fail, and its retry limit is below the largest int32 |
| Retrying.SentForEver | cmd/worker/main.go:210-222 | at the largest retry limit, over any run in which the handler always fails, the job is live again and again |
| PromoterTicks.SubmitIsSafeExactlyWhen | internal/api/backend.go:116-143 | a sent submission never leads to two live messages if and only if its run time is unset or still to come |
| PromoterTicks.PromotedTwice | internal/scheduler/promoter.go:34-43 | a due "scheduled" row with a live message gets a second one |
| PromoterTicks.PromotedJobEndsByTwo | internal/scheduler/promoter.go:35 | a promoted job ends by retry limit 2, whatever was submitted |
| PromoterTicks.SubmittedLimitGovernsExactlyWhen | internal/scheduler/promoter.go:35 | the submitted retry limit governs if and only if the job is not delayed or its limit is 2 |
| LifecycleRefines.EventIsARun | cmd/worker/main.go:115-242 | each lifecycle event is a run of the fine-grained protocol; without failures, one in which no call fails but refused insertions |
| LifecycleRefines.RunIsARun | cmd/worker/main.go:115-242 | so is each lifecycle run |
| LifecycleRefines.LifecycleInherits | internal/api/backend.go:100-153 | lifecycle runs inherit message-row agreement |
| Shared.Cluster.constructor | internal/store/store.go:27-64 | an empty system |
| Shared.Cluster.GetQueue | internal/store/postgres.go:337-344 | at some moment the answer is the paused flag; or an error |
| Shared.Cluster.GetByID | internal/store/postgres.go:72-97 | at some moment the row, or none; or an error |
| Shared.Cluster.GetByIdempotencyKey | internal/store/postgres.go:100-128 | a step in which a row has the key, or none has; or an error |
| Shared.Cluster.Create | internal/store/postgres.go:40-62 | a step that inserts the row where neither key is taken; or an error |
| Shared.Cluster.UpdateStatus | internal/store/postgres.go:209-223 | a step of this thread that sets status and attempt of that row only; or an error |
| Shared.Cluster.CompleteJobWithOutbox | internal/store/postgres.go:226-254 | one step of this thread that changes row and outbox together; or an error |
| Shared.Cluster.ListScheduledDue | internal/store/postgres.go:170-206 | at some moment the first 50 due rows in order; or an error |
| Shared.Cluster.Enqueue | internal/kafkaqueue/producer.go:62-98 | appends the message of `NewMessage`; a confirmed send is on the log |
| Shared.Cluster.Execute | cmd/worker/main.go:157-207 | e-mail by its check, exactly unregistered types unhandled, other handlers as they like |
| Services.SubmitNew | internal/api/backend.go:116-153 | an id exactly if no call returned an error; then the row was inserted with these fields and the message sent, or the run time was still to come |
| Services.Submit | internal/api/backend.go:100-153 | an empty type is refused untouched; if the key was taken at the start, the answer is the job that has it, unless the lookup failed; else a new job, inserted with the arguments given and sent unless it is for later |
| Services.LooksUp | internal/api/backend.go:107-115 | the lookup by key ends the submission unless no job has the key |
| Services.CancelJob | internal/api/backend.go:195-214 | success means that the row was found neither completed nor being processed, and was set "cancelled"; a refusal, that it was found absent, completed or being processed, or a call failed |
| Services.RetryArchivedJob | internal/api/backend.go:255-297 | a returned id is the new one: the row was found archived, and a job of its type, payload and priority stored and sent with no retry; only an image job without payload gets another; a refusal means that the job was absent or not archived, or a call failed |
| Services.ReplayRow | internal/api/backend.go:272-297 | the same from the archived row on |
| Services.PromoteDue | internal/scheduler/promoter.go:27-46 | whatever fails, each of the first 50 jobs due at some moment was sent, and set "pending" if that succeeded; without an error all were |
| Services.PromoteAll | internal/scheduler/promoter.go:34-45 | the same of the loop |
| Services.PromoteJob | internal/scheduler/promoter.go:34-43 | it sends the job with limit 2, and only if that succeeds sets it "pending" |
| Services.Begins | cmd/worker/main.go:125-152 | the handler is to run only if the queue was found not paused and the job not cancelled, and then after an attempt to mark it; dropped because paused or cancelled; an error only of one of the two reads |
| Services.Marks | cmd/worker/main.go:145-152 | a cancelled job is passed over, any other is marked |
| Services.Completes | cmd/worker/main.go:183-194 | without an error the worker set the row "completed", for an e-mail together with its outbox row |
| Services.Fails | cmd/worker/main.go:208-231 | the row is set "failed" with the next attempt, and whether or not that is stored the attempt is sent or the row set "archived", by the retry limit |
| Services.Process | cmd/worker/main.go:115-242 | whatever fails: dropped for a reason, or an error of a read, or admitted, handled with a possible outcome, and exactly the writes and sends of that outcome attempted; an error else only if an e-mail's completion failed |
| Services.Ends | cmd/worker/main.go:157-241 | the same from the handler on |
| Services.Handle | internal/kafkaqueue/consumer.go:150-165 | the same for any message of the log, delivered to a new thread |
| Services.LaunchJob | internal/api/backend.go:281-294 | row and message of a new job, field by field, for a replay or a schedule |
| PriorityHeap.PriorityQueue.Up | internal/kafkaqueue/consumer.go:37-48 | restores the heap from an appended item, same contents |
| PriorityHeap.PriorityQueue.Down | internal/kafkaqueue/consumer.go:37-48 | restores the heap from the root, same contents |
| PriorityHeap.PriorityQueue.Push | internal/kafkaqueue/consumer.go:56-61 | heap order kept, contents grow by the item |
| PriorityHeap.PriorityQueue.SetDrain | internal/kafkaqueue/consumer.go:63-68 | sets the flag and keeps the heap |
| PriorityHeap.PriorityQueue.Pop | internal/kafkaqueue/consumer.go:70-84 | takes an item that nothing held outranks; only if there is none does it close or wait |
| PriorityHeap.RootIsHighest | internal/kafkaqueue/consumer.go:40 | nothing in a heap outranks its root |
| PriorityHeap.PopsDescend | internal/kafkaqueue/consumer.go:70-84 | successive pops come in non-increasing priority and yield contents |
| PriorityHeap.PopAll | internal/kafkaqueue/consumer.go:145-149 | after the last push the popper takes everything, in that order |
| Consuming.EveryMessageIsInOnePlace | internal/kafkaqueue/consumer.go:115-170 | a fetched message is in exactly one of four places; commits only after processing or a decode failure |
| Consuming.DrainedMeansAllDispatched | internal/kafkaqueue/consumer.go:63-84 | when the popper has drained, every decoded message was dispatched exactly once |
| Consuming.WaitingMeansNothingToDo | internal/kafkaqueue/consumer.go:56-84 | no wakeup is lost |
| Consuming.LostExactlyWhatWasHeld | internal/kafkaqueue/consumer.go:150-169 | crashes lose exactly what is held, unprocessed, below the committed offset |
| Consuming.SessionBeginsAfterCommit | internal/kafkaqueue/consumer.go:163-168 | after the last stored commit of a partition the next session fetches from the next offset on, and not the committed one again |
| Consuming.UndecodableIsCommitted | internal/kafkaqueue/consumer.go:136-142 | the fetcher goes on after an undecodable message only when it has tried to commit it |
| Consuming.CleanCommitsLoseNothing | internal/kafkaqueue/consumer.go:163-168 | commits after everything lower lose nothing over any crashes |
| Consuming.LaterCommitLosesEarlier | internal/kafkaqueue/consumer.go:150-169 | a run in which a later commit loses an earlier message |
| Consuming.StepKeepsInv | internal/kafkaqueue/consumer.go:115-170 | every step of every goroutine keeps the invariant behind these |
| Consuming.Consumer.constructor | internal/kafkaqueue/consumer.go:103-114 | an empty session |
| Consuming.Consumer.FetchOne | internal/kafkaqueue/consumer.go:127-142 | one fetched message goes into the heap or to its commit |
| Consuming.Consumer.CommitUndecodable | internal/kafkaqueue/consumer.go:137-141 | commits what does not decode and goes on |
| Consuming.Consumer.StopFetching | internal/kafkaqueue/consumer.go:117-125 | the fetcher's end sets the drain flag |
| Consuming.Consumer.PopOne | internal/kafkaqueue/consumer.go:145-150 | the heap object takes the popper's step: a foremost message, or closes or waits |
| Consuming.Consumer.CommitMessage | internal/kafkaqueue/consumer.go:166-168 | sets the partition's committed offset, also backwards, or fails |
| Consuming.Consumer.FinishMessage | internal/kafkaqueue/consumer.go:163-168 | a goroutine ends by committing, whether process failed or not |
| OutboxProcessing.HandledOncePlusFailedUpdates | cmd/worker/main.go:365-393 | a row is handled once plus once for each failed update; "sent" or "failed" by its handler's result |
| OutboxProcessing.OutcomesFit | internal/jobs/email.go:49-66 | over any run no row with an invalid e-mail payload becomes "sent", and none of another type "failed" |
| OutboxProcessing.HandledOldestFirst | internal/store/postgres.go:257-280 | over a run rows are handled in order of creation |
| OutboxProcessing.BatchTakesOldest | internal/store/postgres.go:257-280 | a batch decides the ten oldest, or all |
| OutboxProcessing.BatchesClear | cmd/worker/main.go:365-393 | over any run, n waiting rows are decided or under way within ceil(n / 10) batches, with later rows inserted at any step |
| OutboxProcessing.StepKeepsInv | cmd/worker/main.go:365-393 | every step keeps handlings and statuses in agreement |
| OutboxProcessing.Outbox.Deliver | internal/jobs/email.go:49-66 | an invalid e-mail payload fails; other types are passed over as sent |
| OutboxProcessing.Outbox.HandleOne | cmd/worker/main.go:372-392 | one row handled and marked; what is inserted meanwhile stays |
| OutboxProcessing.Outbox.UpdateOutboxStatus | internal/store/postgres.go:283-292 | one row's status, by the handler's result; or an error |
| OutboxProcessing.Outbox.HandleAll | cmd/worker/main.go:371-393 | the listed rows in their order, whatever becomes of the ones before |
| OutboxProcessing.Outbox.RunOutboxBatch | cmd/worker/main.go:365-393 | with rows inserted at any step, a run of the outbox: the ten oldest pending rows when listed, in order, each handled once, and all marked unless a call returned an error |
| Recurring.SlotsFireInOrbitOrder | internal/scheduler/recurring.go:31-67 | each firing is the schedule's n-th slot, after confirmed firings of all earlier ones, never early |
| Recurring.NextRunPassesOnlyFired | internal/scheduler/recurring.go:61-65 | next_run_at is one of the schedule's slots, and every slot before it has a confirmed firing |
| Recurring.NeverSkipped | internal/scheduler/recurring.go:39-44 | the parse failure branch is unreachable |
| Recurring.StepKeepsInv | internal/scheduler/recurring.go:38-67 | every step of every scheduler keeps the slots in turn |
| RecurringRate.EachSlotFiresOnce | internal/scheduler/recurring.go:31-67 | with one scheduler and no failure a slot never fires twice |
| RecurringRate.NoScheduleStarves | internal/store/postgres.go:474-493 | over any run, with deletions and later creations at any step, the listings that pass a due schedule by are fewer than M / 50 |
| RecurringRate.StepServes | internal/scheduler/recurring.go:38-67 | a listing takes fifty off what is ahead of a waiting schedule, and no step adds to it |
| RecurringRate.CreatingAddsNoBacklog | internal/api/backend.go:340-355 | a new schedule adds backlog exactly for times from its first slot on |
| Schedules.Timetable.CreateSchedule | internal/api/backend.go:333-359 | refusals change nothing; else one row whose first slot is after the time read, whatever others do before the insertion, unless the store returned an error |
| Schedules.Timetable.InsertSchedule | internal/store/postgres.go:414-438 | a new row with a new id, or a failure |
| Schedules.Timetable.ListSchedulesDue | internal/store/postgres.go:474-493 | the first 50 due schedules of the table as it then is, in order, or a failure |
| Schedules.Timetable.UpdateScheduleNextRun | internal/store/postgres.go:496-500 | the next slot of that schedule only, if it was not deleted |
| Schedules.Launch | internal/scheduler/recurring.go:45-60 | creates and sends a job with the schedule's type, payload, queue and retry limit, of priority 0; a confirmed one is on the log |
| Schedules.ServeSchedule | internal/scheduler/recurring.go:38-66 | one round follows the automaton; if all succeeds, the job is sent and the slot advanced |
| Schedules.RunRecurringTick | internal/scheduler/recurring.go:31-68 | with schedules created and deleted at any step, a run of the automaton; without an error it fires exactly the listed slots in order, sends a job with each one's type, payload, queue and limit, and advances those not deleted |
| Limiting.OccupancyIsHolders | cmd/worker/main.go:334-363 | occupancy is the number of goroutines between Acquire and Release, and at most the limit |
| Limiting.OneSemaphorePerType | cmd/worker/main.go:344-353 | a type keeps one semaphore for ever, shared with no other |
| Limiting.OnlyFullAcquiresBlock | cmd/worker/main.go:355-363 | Release never blocks; Acquire blocks exactly while the limit is reached by others |
| Limiting.EveryoneGetsThrough | cmd/worker/main.go:141-144 | no deadlock: someone can move until all are through, within nine steps each |
| Limiting.StepKeepsInv | cmd/worker/main.go:344-363 | every step under the mutex keeps counts and channels right |
| Limiting.ConcurrencyLimiter.constructor | cmd/worker/main.go:340-342 | no channels yet |
| Limiting.ConcurrencyLimiter.GetCh | cmd/worker/main.go:344-353 | waits for the mutex, and returns the type's channel, made once |
| Limiting.ConcurrencyLimiter.Wait | cmd/worker/main.go:355-363 | a blocked goroutine gets on after finitely many steps of the others |
| Limiting.ConcurrencyLimiter.Acquire | cmd/worker/main.go:355-358 | from any state, waits for the mutex and for room, and ends with a permit and its token |
| Limiting.ConcurrencyLimiter.Release | cmd/worker/main.go:360-363 | from any state, waits for the mutex only, and gives permit and token back |
| RateLimiting.Burst | internal/api/ratelimit.go:36-44 | a burst is between one and the minute's rate, at least ten if the rate is, and ten seconds' worth from 60 on |
| RateLimiting.QueueRateBound | internal/api/ratelimit.go:61-73 | per queue and window of T: at most burst + T * p / 60 admitted, at most 2p in 60 s |
| RateLimiting.GlobalRateBound | internal/api/ratelimit.go:65-72 | the same for all queues together, counting what a queue then rejects |
| RateLimiting.BurstIsAllowed | internal/api/ratelimit.go:36-44 | the first requests, up to the bursts, all pass |
| RateLimiting.AtOnceExactly | internal/api/ratelimit.go:36-44 | of simultaneous requests to a fresh limiter exactly p pass below ten a minute, ten below sixty, and a sixth of the rate from there on |
| RateLimiting.SpacedRequestsPass | internal/api/ratelimit.go:24-34 | after any requests, those that keep the pace of the limits all pass |
| RateLimiting.RetryAfterSuffices | internal/api/ratelimit.go:65-72 | 60 s after a request, rejected or not, a request to the same queue passes if nobody else asks |
| RateLimiting.AdmittedIsPaid | internal/api/ratelimit.go:55 | whatever the order of times, admissions are paid for by the level and the climb of time |
| RateLimiting.OutOfOrderExceeds | internal/api/ratelimit.go:55 | requests out of the order of their times can exceed the window bound |
| RateLimiting.UnlimitedExactlyWhen | internal/api/ratelimit.go:55 | they are admitted without limit if and only if the rate is at least 2 and the window gains two tokens |
| RateLimiting.QueueAsBucket | internal/api/ratelimit.go:46-58 | a queue's share of any run is the run of its own bucket |
| RateLimiting.GlobalAsBucket | internal/api/ratelimit.go:65-67 | what is spent globally is the run of the global bucket |
| RateLimiting.TokenBucket.Allow | internal/api/ratelimit.go:65-71 | one bucket's decision and new level |
| RateLimiting.TokenBucketLimiter.constructor | internal/api/ratelimit.go:24-34 | fresh limits, the global one only if positive |
| RateLimiting.TokenBucketLimiter.GetQueueLimiter | internal/api/ratelimit.go:46-58 | the queue's own bucket, made once; none without a limit |
| RateLimiting.TokenBucketLimiter.Allow | internal/api/ratelimit.go:61-73 | decision, Retry-After and every bucket's new state |

## Left out

- HTTP and gRPC routing, JSON, the dashboard, the event stream and its consumers, metrics, tracing and debug logs.
- Kafka and Postgres themselves: the log is a sequence, commits are an offset per partition, queries are filter, sort and take. A message that kafka-go writes twice while retrying is not modelled; a redelivery of it is.
- Columns that never feed back: last_error, created_at and updated_at of jobs, completed_at, sent_at, asynq_task_id.
- The names of schedules and their uniqueness, and schedules whose cron expression never fires again.
- The UUID that Enqueue draws for an empty id: every caller passes one.
- The handlers' own work, and the unused handler-less branch of the outbox processor: its handler is always registered.
- The end of RunConsumer closing the reader while goroutines still run: their commits may then fail, which the model allows.
- The fake job generator, whose submissions are ordinary ones, internal/ingest, and the list and status calls of the API.
- Rounding in golang.org/x/time/rate, which computes with floats; the model is exact.
- Schedules.RunRecurringTick: a second scheduler does not move during the tick; `Recurring` has runs of any number of them.
- OutboxProcessing.Outbox.RunOutboxBatch: for one outbox processor; two could handle a row twice.
- Limiting.ConcurrencyLimiter.Wait: no further goroutines come while it waits; in the runs of `Limiting` they may at any step.
- PriorityHeap.PopAll: the wait on the condition variable is in the runs of `Consuming`.
- PromoterOrder.PromotionsAreSorted: for one promoter whose calls succeed and jobs submitted ahead of their time.
- PromoterRate.TicksClearTheDue: under the same assumptions.
- Outcomes.SingleFlightAlways: for successful status writes and no redelivery; the promoter's tick is one step.
- Completion.CompletionIsFinalExactlyWhen: for runs that deliver each message at most once; with redelivery there is no such condition, by `Completion.NoCompletionIsFinal`.
