# The SMS pipeline: sends, outbox and delivery

This project models the money-carrying part of the SMS service: the send transaction, the outbox
worker, the delivery consumer and the template renderer of `internal/messaging`.

**Rows and statements.** `domain.dfy` and `tables.dfy` hold the rows and, as functions on tables, the
meaning of every SQL statement and transaction the pipeline issues. `plan.dfy`, `template.dfy` and
`provider.dfy` hold planning, rendering and provider keys, each as the loop or in-place object the program
has and as the specification it is proved against.

**The protocol.** `protocol.dfy` is one state machine over the tables, the Redis cache, the Kafka log with
its acknowledged records, the provider's memory and the database clock. A step is one committed statement
or transaction, one call of Kafka or the provider, or a piece of bad luck: a crash between any two
statements, a write that fails (`Aborted`), a write that happens although its caller sees an error
(`Lost`), a Publish that appends and still reports an error, an evicted cache entry, a redelivered record,
a lease that goes stale, a clock that moves. Any number of API calls, outbox claims and deliveries are in
flight, in any interleaving. The history fields (deposits, demand, refunds, publish calls, answers) are
read by no step.

**What is proved of it.** `shapes.dfy` says what each kind of step may change. `invariants.dfy`,
`preservation.dfy`, `persist.dfy` and `runs.dfy` prove that every step keeps one invariant; `theorems.dfy`,
`refunds.dfy`, `lease.dfy` and `workload.dfy` draw the results about whole executions from it.
`columns.dfy` and `writes.dfy` say the same for single columns, in the fields and numbers of the schema and
without the functions of the model: what every row of every reachable state looks like, what each step
writes, what the counters count, and which earlier step each step of the worker presupposes.
`finality.dfy` says exactly when a refund is final and when a message can no longer be delivered, and
`limits.dfy` gives an execution in which a refund is not final.

**The program's objects.** `repo.dfy`, `redis.dfy`, `worker.dfy`, `consumer.dfy` and `usecase.dfy` are the
program's classes with their loops and branches, on real mutable stores. `world.dfy` and `platform.dfy`
put a ghost history beside the stores: every statement an object executes has to be an enabled step of the
protocol, and `InSync` says that the stores are what the protocol state says. Between two statements
`Yield` lets other processes run: its contract says only that the history grew by steps of others, and
`Interference` proves that this is all a process needs. So whatever the objects do is part of an execution
to which the theorems apply. `drain.dfy` proves that undisturbed rounds drain the outbox within a bound,
and `quiescence.dfy` that from any reachable state the worker and one consumer bring everything to rest.

Where the documentation and the code differ, the model follows the code. The README of the SMS service
(lines 27 and 85 of that file) says that exhausted attempts leave the message failed and refunded. But `MarkMessageSent` and `MarkMessageFailed` are unconditional, so a claim that was
already open can overwrite the dead letter (`Limits.RefundedAndSent`). `Finality.RefundIsFinal` says exactly
when the documented behaviour holds, for every refund, and `Finality.QueuedRefundIsFinal` gives the part of
that condition which the status of the row shows.

## Model

| member | source | states |
|---|---|---|
| Template.RenderIsSimultaneous | internal/messaging/plan.go:158-167 | for literals without an opening brace, brace-free keys and values without an opening brace, the replacing loop equals one simultaneous substitution for every visiting order of the map, and unknown tokens stay |
| Template.OrderSafeIsNoOpen | internal/messaging/plan.go:160-167 | exactly which values are safe: the loop is the simultaneous substitution for every template, every other variable and every order if and only if the value has no opening brace |
| Template.ValueWithBraceShowsOrder | internal/messaging/plan.go:160-167 | one map and one template whose two visiting orders render differently |
| Template.RenderTemplate | internal/messaging/plan.go:160-167 | the loop visits every variable once in some order and yields the simultaneous substitution whenever the restriction holds |
| Plan.PayableIsAffordablePrefix | internal/messaging/plan.go:69-91 | the payable messages are exactly the longest affordable prefix of the valid recipients, in order |
| Plan.EveryCandidatePlaced | internal/messaging/plan.go:69-91 | where each candidate ends up: payable and skipped share out the input and both keep its order |
| Plan.SplitSizes | internal/messaging/plan.go:69-91 | the rejected and skipped counts are those of the candidates, and nothing is lost |
| Plan.SplitIsOptimal | internal/messaging/plan.go:25-28 | the total cost fits the balance and one more message would not, unless all are accepted |
| Plan.PayableContents | internal/messaging/plan.go:106-135 | every payable message is queued, belongs to the sender and costs the flat price |
| Plan.SendableCount | internal/messaging/plan.go:40-62 | the candidates that are not rejected are as many as the command has valid recipients |
| Plan.ValidMobileIs | internal/messaging/plan.go:170-181 | a mobile is valid exactly when it is ten or more digits between white space |
| Plan.CandidateFields | internal/messaging/plan.go:106-156 | every column of every candidate: user, mobile, kind, the requested delivery mode, text, cost, status and code |
| Plan.PlacedFields | internal/messaging/plan.go:69-91 | recipient by recipient: the message that is stored for it, or the skipped line with id 0, cost 0, status rejected and the code that tells why |
| Plan.PlanOne | internal/messaging/plan.go:69-91 | one candidate goes to payable, rejected or skipped, in place |
| Plan.BuildOtpCandidate | internal/messaging/plan.go:106-119 | an invalid mobile is rejected, a valid one gets the template rendered in some order of its variables |
| Plan.PlanOtp | internal/messaging/plan.go:40-50 | the OTP loop is the split of the OTP candidates |
| Plan.PlanText | internal/messaging/plan.go:52-62 | the text loop continues the split with the text candidates |
| Plan.PlanSend | internal/messaging/plan.go:23-66 | the in-place plan is the optimal split under the balance, its total cost is within it |
| Provider.KeyInjective | internal/messaging/consumer.go:332-334 | distinct messages never share a provider key |
| Provider.KeyIs | internal/messaging/consumer.go:332-334 | the key is "msg:" followed by the number of the message in decimal, without leading zeros |
| Provider.LogSender.Send | internal/messaging/consumer.go:44-54 | at most one SMS leaves per effective key, whatever is asked how often |
| Redis.IdempotencyKeyInjective | internal/messaging/redis_store.go:25-27 | distinct user and key pairs never share a cache entry, whatever characters the key holds |
| Redis.IdempotencyKeyIs | internal/messaging/redis_store.go:25-27 | the entry of a user and key is "idempotency:", the user in decimal, a colon and the key |
| Redis.RedisStore.GetIdempotentResult | internal/messaging/redis_store.go:36-61 | a hit exactly when an entry of this user and key has an equal or an empty hash |
| Redis.RedisStore.SaveIdempotentResult | internal/messaging/redis_store.go:64-70 | overwrites this entry and no other |
| Repository.PreferredFirst | internal/messaging/repo.go:124-133 | a batch is exactly as many eligible events as the limit allows such that an event of the preferred topic is left behind only by a batch of that topic alone, and smaller identifiers come first among the rest |
| Repository.BatchUnique | internal/messaging/repo.go:124-133 | the claimed batch is determined by priority and limit |
| Repository.SelectBatch | internal/messaging/repo.go:124-142 | takes as many eligible events as the limit allows, none left out precedes one taken, and each is returned once as updated |
| Repository.Repo.ClaimPendingOutbox | internal/messaging/repo.go:110-163 | the batch of pending or stale unlocked events becomes publishing with one more attempt; defaults for limit and lease; nothing on an error before commit |
| Repository.Repo.MarkOutboxPublished | internal/messaging/repo.go:191-198 | closes an open event as published and touches nothing else |
| Repository.Repo.FinalizeOutboxExhausted | internal/messaging/repo.go:212-250 | event failed, message failed and cost returned as one transaction, the latter two only if the message was queued or sending |
| Repository.Repo.RecordOutboxFailure | internal/messaging/repo.go:253-260 | an open event is pending again with its error |
| Repository.Repo.TryClaimMessage | internal/messaging/repo.go:341-360 | claims a message that is queued or sending for more than 120000 ms and reports whether a row was updated |
| Repository.Repo.ClassifyMessage | internal/messaging/repo.go:362-381 | the outcome read from the status, missing rows included |
| Repository.Repo.MarkMessageSent | internal/messaging/repo.go:384-391 | unconditional update to sent, without an error code |
| Repository.Repo.MarkMessageFailed | internal/messaging/repo.go:394-401 | unconditional update to failed with a code |
| Repository.Repo.FindRequestByIdempotency | internal/messaging/repo.go:39-59 | the request of this user and key, or not found exactly when there is none |
| Repository.Repo.GetBalanceForUpdate | internal/messaging/repo.go:404-413 | the balance, or not found |
| Repository.Repo.DebitBalance | internal/messaging/repo.go:416-436 | debits exactly when the balance suffices, otherwise insufficient balance and no change |
| Repository.Repo.CreateRequest | internal/messaging/repo.go:63-75 | inserts under the unique index, conflict exactly when the user and key are taken |
| Repository.Repo.UpdateRequestResponse | internal/messaging/repo.go:78-85 | sets counts, cost and stored answer of one request |
| Repository.Repo.CreateMessage | internal/messaging/repo.go:88-95 | inserts one message under a new identifier |
| Repository.Repo.CreateOutbox | internal/messaging/repo.go:98-105 | inserts one event under a new identifier |
| Repository.Repo.Commit | internal/messaging/repo.go:34-36 | the copy a transaction worked on becomes the tables, or nothing changes |
| Preservation.LoadMeaning | internal/messaging/usecase.go:97-122 | on reachable tables the lookup misses exactly without a request, hits exactly with the stored answer of the same body, conflicts exactly on another body |
| Preservation.ReadCacheKeeps | internal/messaging/usecase.go:89-95 | an answer from the cache is the stored answer of the same body |
| Preservation.PollKeeps | internal/messaging/usecase.go:125-141 | polling after a conflict ends with the stored answer or a true conflict |
| Preservation.FirstPollAnswers | internal/messaging/usecase.go:171-182 | after a unique conflict the first poll finds the complete request |
| Preservation.ClaimBatchKeeps | internal/messaging/repo.go:124-142 | claiming a batch keeps the invariant; its attempt numbers are new |
| Preservation.PublishKeeps | internal/messaging/worker.go:114-124 | a Publish, appended or not, keeps the invariant |
| Preservation.MarkPublishedKeeps | internal/messaging/worker.go:125-128 | marking keeps that a published event has its record in the log |
| Preservation.RecordFailureKeeps | internal/messaging/worker.go:122-123 | reopening keeps the invariant, also after a finalization whose outcome is unknown |
| Preservation.FinalizeKeeps | internal/messaging/repo.go:212-250 | dead-lettering keeps money and single refunds, also on an event that is already closed and under a lost commit |
| Preservation.CompensateMoney | internal/messaging/repo.go:227-247 | the returned cost balances the refund that is recorded |
| Preservation.TryClaimKeeps | internal/messaging/repo.go:341-360 | the claiming UPDATE keeps the invariant |
| Preservation.CallProviderKeeps | internal/messaging/consumer.go:174-200 | a provider call, reached or not, keeps at most one SMS per key |
| Preservation.MarkSentKeeps | internal/messaging/consumer.go:161-166 | marking sent keeps that a sent message has left the provider |
| Preservation.MarkFailedKeeps | internal/messaging/consumer.go:150-158 | marking failed keeps the invariant even on a refunded or sent message |
| Persisting.SpentByInsert | internal/messaging/usecase.go:185-221 | inserting the rows adds their number times the price to what the sender spent and nothing to others |
| Persisting.StoredMoney | internal/messaging/usecase.go:155-169 | the debit equals what the inserted messages cost, no balance becomes negative |
| Persisting.StoredEvents | internal/messaging/usecase.go:185-221 | messages and events stay in bijection through the inserts |
| Persisting.StoredRequests | internal/messaging/usecase.go:171-242 | every stored answer still agrees with its rows, the key stays unique |
| Persisting.DebitNeverFails | internal/messaging/usecase.go:155-169 | insufficient balance is unreachable from the send transaction |
| Persisting.PersistKeeps | internal/messaging/usecase.go:148-245 | the send transaction keeps the invariant in each of its outcomes |
| Shapes.StepShape | internal/messaging/repo.go:191-260 | each kind of step changes its own columns, log or bookkeeping and nothing else |
| Runs.StepKeeps | internal/messaging/worker.go:89-162 | every step of every process keeps the invariant |
| Runs.ExecutionKeeps | internal/messaging/consumer.go:96-200 | every reachable state satisfies the invariant |
| Runs.RunProgress | internal/messaging/repo.go:191-260 | along a run messages stay terminal, closed events stay closed, attempts, log and history only grow, requests never change |
| Theorems.MoneyConserved | internal/messaging/repo.go:404-436 | balance plus cost of all messages equals initial balance plus top-ups plus refunds, and no balance is negative, in every reachable state |
| Theorems.RefundedAtMostOnce | internal/messaging/repo.go:227-247 | at most one refund per message, of its cost and to its owner; refunded implies sent or failed; code outbox_exhausted implies exactly one |
| Theorems.TerminalForever | internal/messaging/repo.go:384-401 | the set of sent and failed is closed |
| Theorems.NotForgotten | internal/messaging/worker.go:107-132 | an undelivered message has an open event or an unacknowledged record |
| Theorems.AckedMeansDone | internal/messaging/consumer.go:301-312 | an acknowledged record means a terminal message, now and ever after |
| Theorems.ClosedEventsStay | internal/messaging/repo.go:191-250 | published and failed are absorbing, a failed event has a terminal message |
| Theorems.SuccessesAgree | internal/messaging/usecase.go:51-87 | all successful answers of one user and key are equal and came from the same body |
| Theorems.ConflictMeansOtherBody | internal/messaging/usecase.go:106-109 | a conflict is answered only when the key is taken by another body; insufficient funds is never answered |
| Theorems.OneRequestPerKey | internal/messaging/repo.go:63-75 | at most one request per user and key, unchanged once committed |
| Theorems.TakenKeyChangesNothing | internal/messaging/usecase.go:177-183 | a transaction on a taken key changes no table, however check and transaction interleave |
| Theorems.OtherBodyConflicts | internal/messaging/usecase.go:97-109 | another body on a taken key is answered with a conflict, unless the infrastructure fails, and its lookup is a conflict wherever it happens |
| Theorems.CacheInvisible | internal/messaging/usecase.go:89-95 | with the cache, without it, or with Redis failing the lookup gives the same |
| Theorems.PollNeverMisses | internal/messaging/usecase.go:125-141 | a poll after a unique conflict never misses |
| Theorems.OneSmsPerMessage | internal/messaging/consumer.go:161-200 | at most one SMS per message over whole runs, with its own recipient and text; sent implies exactly one |
| Theorems.PublishBound | internal/messaging/worker.go:107-124 | at most maxAttempts recorded calls of Publish per event |
| Writes.PublishCallsBounded | internal/messaging/worker.go:107-124 | among the steps of an execution there are at most maxAttempts calls of Publish for an event |
| Writes.AttemptsCountClaims | internal/messaging/repo.go:134-137 | the attempts of an event are the number of times it was claimed |
| Theorems.AttemptsIncrease | internal/messaging/repo.go:124-142 | later claims of an event carry strictly larger attempt numbers |
| Theorems.ClaimClassifies | internal/messaging/repo.go:362-381 | whatever happens between UPDATE and SELECT, queued and missing are never seen, the outcome names the status, and sent and failed are final |
| Theorems.TotalsAgree | internal/messaging/usecase.go:223-244 | accepted count and total cost of a request and of its stored answer are those of its message rows, and the lines of the answer are those rows, each once |
| Theorems.EventsMirrorMessages | internal/messaging/usecase.go:196-220 | messages and events are in bijection; in the outbox and in the log express messages are on the express topic and all others on the normal one, keyed by their recipient, with every field of the payload |
| Columns.ErrorCodes | internal/messaging/repo.go:384-401 | exactly the failed messages have an error code, provider_error or outbox_exhausted |
| Columns.EventStates | internal/messaging/repo.go:191-260 | what lease, publication time, last error and attempts of an event are in each of its states; failed only with the attempts used up |
| Columns.AnswersFit | internal/messaging/usecase.go:223-244 | the stored answer accounts for every recipient of the stored command in order: accepted while the money lasted, skipped, or rejected |
| Columns.MessagesAreWanted | internal/messaging/plan.go:106-135 | every stored message is what a valid recipient of its request's command asked for: mobile, kind, delivery mode and text |
| Writes.PersistStep | internal/messaging/usecase.go:185-221 | a send adds queued messages dated now, each with a pending event without attempts, and changes no other message or event |
| Writes.MarkSentStep | internal/messaging/repo.go:384-391 | the row after the step is the row before with status sent, no error code and the time now |
| Writes.MarkFailedStep | internal/messaging/repo.go:394-401 | the row after the step is the row before with status failed, provider_error and the time now |
| Writes.TryClaimStep | internal/messaging/repo.go:341-360 | acquired exactly when queued or sending for more than 120000 ms, then leased now; otherwise nothing changes |
| Writes.ClaimBatchStep | internal/messaging/repo.go:124-142 | only events pending or leased for more than 60000 ms are claimed; lease, status and attempts after it |
| Writes.WorkerStep | internal/messaging/repo.go:191-260 | the columns that marking, retrying and dead-lettering write, on an open event only |
| Writes.OnlyExhaustedIsRefunded | internal/messaging/worker.go:109-121 | a refund happens only when the attempts of the event are used up |
| Writes.PhasesHaveCauses | internal/messaging/worker.go:107-132 | each phase of a claim was brought about by an earlier step on this very claim |
| Writes.WorkerCauses | internal/messaging/worker.go:107-132 | marked only after a successful Publish, reopened only after a failed one with attempts left or a failed dead letter, dead-lettered only after the last or beyond it |
| Writes.ReadCacheStep | internal/messaging/redis_store.go:36-61 | a working Redis answers at once exactly when it has an entry of this user and key with the hash of the body |
| Refunds.StepClean | internal/messaging/worker.go:109-132 | in careful runs only the current claim can have appended, and refunded events are failed |
| Refunds.RefundedNeverDelivered | internal/messaging/worker.go:136-162 | without stale outbox leases and without a crash or error between Publish and its mark, a refunded message was never appended nor delivered and its event is failed, also after failed finalizations |
| Refunds.RefundSticks | internal/messaging/repo.go:227-235 | refunded while no consumer held an unfinished claim: failed with outbox_exhausted forever |
| Finality.DeadLetterIsFinal | internal/messaging/repo.go:384-401 | a dead letter is final in everything that can follow if and only if no consumer holds an unfinished claim on the message |
| Finality.RefundIsFinal | internal/messaging/repo.go:212-250 | for every refund of every execution: the message stays failed with outbox_exhausted whatever follows if and only if nobody held an unfinished claim on it |
| Finality.QueuedIsUnclaimed | internal/messaging/repo.go:341-360 | nobody holds a claim on a queued message |
| Finality.QueuedRefundIsFinal | internal/messaging/repo.go:227-235 | a message refunded from a queued row stays failed with outbox_exhausted and is never delivered |
| Finality.NeverDelivered | internal/messaging/consumer.go:174-200 | a sent or failed message is never delivered from now on if and only if no SMS of it has left and no consumer is calling the provider for it or waiting to |
| Finality.SealedNeverDelivered | internal/messaging/consumer.go:130-166 | in every execution a dead letter without unfinished claim and without SMS so far stays undelivered, without any condition on leases, publishes and marks |
| Lease.BackoffTotal | internal/messaging/consumer.go:189-190 | 398 ms is the most two backoffs take, and is reached |
| Lease.ClaimIsYoung | internal/messaging/consumer.go:174-200 | a claim that keeps its time is never older than the lease |
| Lease.AcquiredIsFresh | internal/messaging/repo.go:341-360 | a message is acquired exactly when queued or stale, and for 120000 ms of database time nobody takes it over: it stays leased until it is sent or failed |
| Lease.OneHolder | internal/messaging/repo.go:341-360 | if three calls, 398 ms and the mark fit into 120000 ms, no two workers hold the same message |
| Lease.SentForever | internal/messaging/repo.go:384-401 | and then sent is absorbing |
| Workload.RestAffordable | internal/messaging/plan.go:25-28 | after paying for some messages the floor division affords exactly the rest |
| Workload.ServeOne | internal/messaging/plan.go:25-64 | one send closes the gap between affordable and requested as far as the money goes |
| Workload.DemandIs | internal/messaging/usecase.go:148-245 | what was asked for is the sum, over the committed sends of the run, of their valid recipients |
| Workload.WorkConserved | internal/messaging/usecase.go:155-169 | without top-ups and refunds the accepted messages are the lesser of affordable and asked for, for every interleaving |
| Limits.RefundedAndSent | internal/messaging/repo.go:384-391 | a reachable state in which a refunded message is sent and its SMS delivered |
| Worlds.ForeignSteps | internal/messaging/consumer.go:284-314 | steps of others never touch what a process owns |
| Worlds.EndedForever | internal/messaging/repo.go:134-137 | an ended claim never comes back |
| Platform.System.Yield | internal/messaging/consumer.go:270-282 | other processes run: the stores stay in step with the longer history |
| Platform.Broker.Publish | internal/messaging/worker.go:20-22 | nil means appended, an error may hide an appended record |
| Worker.OutboxWorker.constructor | internal/messaging/worker.go:38-68 | defaults for batch size and attempts |
| Worker.OutboxWorker.ClaimBatch | internal/messaging/worker.go:93-101 | claims a fair batch in one step |
| Worker.OutboxWorker.DeadLetter | internal/messaging/worker.go:136-162 | finalizes, and on an error reopens the event; the claim ends either way |
| Worker.OutboxWorker.PublishFailed | internal/messaging/worker.go:114-124 | dead letter when attempts are used up, else the event is pending again |
| Worker.OutboxWorker.HandleEvent | internal/messaging/worker.go:107-132 | whatever others did since the claim, one claimed event is published, marked, retried or dead-lettered by enabled steps, and its claim ends |
| Worker.OutboxWorker.HandleBatch | internal/messaging/worker.go:107-132 | every claim of the batch ends and none is abandoned, with others running before, between and inside the events |
| Worker.OutboxWorker.ProcessOnce | internal/messaging/worker.go:89-134 | claims the first claimable events, the preferred topic before the others, and ends every claim; undisturbed, each claimed event ends published, failed, or pending with attempts left |
| Drain.RoundShrinks | internal/messaging/worker.go:107-132 | a round takes at least one off the bound per claimed event |
| Drain.Run | internal/messaging/worker.go:71-85 | for every pattern of Publish failures all claimable events end published or failed within the bound |
| Drain.BoundIs | internal/messaging/worker.go:107-124 | the bound is the sum of max(1, maxAttempts - attempts) over the events that can be claimed until the horizon |
| Quiescence.RunStamped | internal/messaging/repo.go:134-137 | a publishing event is always leased, and no lease of an event or a message lies in the future |
| Quiescence.ConsumeAll | internal/messaging/consumer.go:289-313 | one pass over the log acknowledges every record, if every message is finished, queued or stale |
| Quiescence.Settle | internal/messaging/consumer.go:284-314 | from any reachable state, once the leases ran out: drain rounds, within their bound, and one consumer pass bring every event to published or failed, every message to sent or failed and every record to acknowledged, whatever Publish and the provider answer |
| Consumer.MessageProcessor.Backoff | internal/messaging/consumer.go:188-190 | the delay is in the range the timing argument uses |
| Consumer.MessageProcessor.Call | internal/messaging/consumer.go:175-187 | one provider call under the message's key |
| Consumer.MessageProcessor.SendWithRetry | internal/messaging/consumer.go:174-200 | at most three calls, three before giving up, none after success or cancellation |
| Consumer.MessageProcessor.ClaimMessageForSending | internal/messaging/repo.go:341-381 | UPDATE, interference, SELECT: an acquired claim is fresh, the other outcomes are true of the row |
| Consumer.MessageProcessor.Process | internal/messaging/consumer.go:96-172 | nil only when the record may be committed: its message is terminal, and as the provider calls left it if there were any; undisturbed there are calls exactly when the row is queued or sending for more than 120000 ms; garbage and missing ids are acknowledged without effect |
| Consumer.MessageProcessor.Deliver | internal/messaging/consumer.go:144-171 | success leaves the row sent without an error code, three errors leave it failed with provider_error, cancellation and mark errors leave the record uncommitted |
| Consumer.MessageProcessor.HandleRecord | internal/messaging/consumer.go:290-312 | fetch, process, and commit only on nil |
| Consumer.MessageProcessor.HandleFetched | internal/messaging/consumer.go:301-312 | a processed record has a terminal message, and undisturbed no other message changes |
| Consumer.MessageProcessor.RunWorker | internal/messaging/consumer.go:284-314 | every record counted as a success has a terminal message, only successes are committed, failStreak counts the failures since the last success |
| Sending.UseCase.LookInCache | internal/messaging/usecase.go:89-95 | a cached answer is the one the database would give |
| Sending.UseCase.Find | internal/messaging/usecase.go:97-113 | found, absent, clashing as the stored request says |
| Sending.UseCase.LoadIdempotentFromDB | internal/messaging/usecase.go:97-122 | the verdict of the tables, however it is reached; saving a found answer changes no table |
| Sending.UseCase.Save | internal/messaging/usecase.go:85-86 | the answer is cached under its user, key and hash, and an error of Redis changes nothing for the caller |
| Sending.UseCase.WaitIdempotentFromDB | internal/messaging/usecase.go:125-141 | at most five polls, ending with an answer, a conflict or an error |
| Sending.UseCase.InsertRows | internal/messaging/usecase.go:185-221 | the loop inserts message and event rows and answer lines for every payable candidate |
| Sending.UseCase.CommitSend | internal/messaging/usecase.go:240-244 | all of the transaction or nothing |
| Sending.UseCase.Enqueue | internal/messaging/usecase.go:171-183 | a conflict rolls back and replays the stored answer |
| Sending.UseCase.Finalize | internal/messaging/usecase.go:223-244 | the stored answer agrees with the inserted rows |
| Sending.UseCase.PersistSend | internal/messaging/usecase.go:148-245 | the statements together are the send transaction; the debit guard never fails |
| Sending.UseCase.Send | internal/messaging/usecase.go:51-87 | under any interference the answer is recorded and true; undisturbed it is the stored answer, a conflict, or exactly one new request |

## Left out

- HTTP handlers, request validation, metrics, tracing, logging and configuration.
- JSON and SHA-256: the codec is a round trip and the payload hash an injective function that is never empty; cache entries of the old format are not modelled.
- Redis expiry: entries vanish at any time, the 24 hours are not counted.
- The DLQ: it is written best effort before the transitions it accompanies, and nothing reads it.
- Int64 overflow: balances and identifiers are unbounded integers, balances are proved non-negative.
- Isolation inside one transaction: a transaction is atomic at its commit, as the row locks and the unique index make it; deadlocks and serialization errors are failed statements.
- Foreign keys and the status checks of the schema, which the stored rows satisfy.
- `ListMessages`, `EnsureByName`, `MarkOutboxFailed` (no caller), `CapWorkers` and the sleeping of `backoffSleep`.
- Kafka partitions, ordering per recipient and cumulative offsets: records are acknowledged one by one and may be delivered again at any time.
- The processing order inside a claimed batch: `UPDATE … RETURNING` promises none. The worker's loop handles the returned order, the protocol allows the claims of a batch to advance in any order.
- SKIP LOCKED: the protocol lets a claim take any eligible events up to the batch size, a superset of what the worker takes.
- A provider without deduplication, and the loss of the development sender's memory on a restart: the one-SMS results assume keys are remembered.
- Theorems.OneSmsPerMessage: assumes a provider that deduplicates by key, as the repository's documentation demands.
- Platform.System.Yield: its body lets at most the clock tick; the processes are verified against its contract alone, which allows any steps of others.
- Refunds.RefundedNeverDelivered: assumes that an error of Publish means nothing was appended, besides the two conditions of its row; Finality.NeverDelivered says exactly when nothing is delivered.
- Drain.Run: assumes no database failure, no other process, and no time beyond the horizon in the bound; Publish answers arbitrarily.
- Quiescence.Settle: assumes reliable stores, nobody else at work and contexts that do not end; the provider may answer success or error.
- Lease.OneHolder: assumes that calls, timers and the final mark keep their time bounds, which nothing in the program enforces.
- Preemption inside a transaction: no `Yield` stands between its statements.
