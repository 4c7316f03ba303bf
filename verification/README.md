# Verified models of the guaranteed-delivery starter

This project models, in Dafny, the parts of the repository whose correctness spans
several functions, several processes or whole runs, and proves what they promise.

- **Guaranteed delivery** (`outbox_domain`, `outbox_memory`, `dispatch`, `dispatcher`,
  `idempotency`, `guard`, `once`, `chain`): the in-memory outbox, any number of
  dispatchers, the relay and the in-process bus, the effect-once guard, and the three
  idempotency drivers. `Dispatch` and `Guard` are machines whose steps are the locked
  store methods and the single store commands; `Chain` is their product. The classes
  are the code: the dispatcher and the guarded consumption on each of the three drivers
  are proved to make legal runs of the machines.
- **Election** (`election`, `runner`): replicas, goroutines, connection pools and session
  locks as one machine, the elector and `RunOnce` as code over it, the validation of a
  batch, and the in-process elector.
- **Authentication** (`auth_domain`, `auth_history`, `auth_accounts`, `auth_store`): answers
  of the use cases as functions of the history of calls, accounts under concurrency, and
  the store and use cases as code.
- **Dynamic configuration** (`dynconf`): the cache in front of the shared table.
- **Pagination** (`base64url`, `pagination`), **layered configuration** (`deepmerge`) and the
  **coverage gate** (`coverage`).

`decimal`, `ascii_text`, `byte_order` and `wrappers` hold what several of them share.

A machine is a set of labels with `Enabled` and `Apply`; `After` and `Legal` give the
state a sequence of labels leads to and whether each was enabled where it was taken.
Theorems speak of every legal run from the initial state. History that no step reads
(call instants, memorised responses, births of accounts) is kept in the state so that
theorems can mention it.

Assumptions, each visible as a parameter, a step or a precondition:

- clocks do not go back and a duration is an integer number of nanoseconds; the replicas of
  `dynconf` read clocks of their own, those of the other machines one clock;
- a dispatcher is built from a policy its own validation accepts, and a guard has a
  positive ttl;
- a store command on Postgres or Redis may fail, with or without effect, and one on memory
  may be cancelled; `Guard.FailedReservationLocksIff`, `Guard.FailedCompletionIsReplayedIff`
  and `Guard.FailedReleaseLocksIff` say what each failure costs;
- `Guard.AtMostOneHolder` and `Guard.SuccessesAreSpaced` assume that no release takes the
  live reservation of another delivery (`Guard.TakesAnother`), which is exactly when
  exclusivity holds (`Guard.ExclusiveIff`); releases before the expiry of their own
  reservation never do (`Guard.ReleasesInTimeAreHarmless`), later ones may on every driver
  (`Guard.LateReleaseBreaksExclusivity`), and completions may come at any time;
- `Guard.SuccessIsAlwaysMarked` assumes that every command on the key comes in time
  (`Guard.LateCompletionSpoilsAnother`, `Guard.CompletionMarksAnotherIff` and
  `Guard.InTimeCompletionIsRefusedIff` say why and exactly when a late one matters);
- within a ttl of the creation of a message nothing of it can be late, so
  `Chain.ExactlyOnceInsideTheWindow` and `Chain.AtMostOnceInsideTheWindow` assume neither;
- one guarded handler is subscribed per event type (`Once.LaterHandlersNeverRun` says why);
- the database ends a session only when its process is dead or closes it
  (`Election.LostSessionElectsAnother` says why);
- authorisation and sessions are stated for calls that do not overlap
  (`AuthAccounts.OverlappedAssignmentIsLostIff` says why); accounts and digests under any
  interleaving of the locked store methods;
- the lines of a coverage profile agree on the size of a range where a theorem requires
  `Agree`; `Coverage.RangeHeldIff` and the reading of lines do not.

Where the code and its comments disagree the model follows the code:

- `internal/core/outbox/dispatcher.go:20-21` speaks of roughly forty minutes for eight
  attempts at one second; `TotalBackoffClosedForm` gives 254 s for the seven waits
  between them.
- the last attempt of a message is reported as exhausted only when the handler returned an
  error; when it panicked the report says so instead, although the message is failed too
  (`internal/core/outbox/application/dispatcher.go:226-248`).

## Model

| member | source | states |
|---|---|---|
| Decimal.ParseInt64RoundTrip | internal/pkg/pagination/pagination.go:42-59 | a decimal numeral reads back as the integer written exactly when that integer fits 64 bits |
| Decimal.ParseInt64IsLenient | internal/pkg/pagination/pagination.go:55-60 | a plus sign and leading zeros are read too |
| Decimal.MalformedIsRefused | internal/pkg/pagination/pagination.go:55-60 | an empty text, a lone sign and any character but a digit after the sign are refused |
| OutboxDomain.BackoffNeverWraps | internal/core/outbox/domain/message.go:86-109 | over all attempt counts the 64-bit product is the exponential backoff exactly when the base is at most 2^53 - 1 ns |
| OutboxDomain.WrappedBackoffGoesBackInTime | internal/core/outbox/domain/message.go:86-109 | the first base beyond that bound sends the tenth retry into the past |
| OutboxDomain.TotalBackoffClosedForm | internal/core/outbox/domain/message.go:92-109 | the waits after failures 1..k add up to base * (2^(k+1) - 2), then 1024 bases more per failure |
| OutboxMemory.NextIdIsNew | internal/core/outbox/drivers/memory/memory.go:55-78 | the next identifier was never given out |
| OutboxMemory.SelectionIsOldestFirst | internal/core/outbox/drivers/memory/memory.go:84-108 | a claim hands out distinct due messages in the order of their enqueueing, and leaves one behind only when the batch is full of older ones |
| OutboxMemory.BatchIsHandout | internal/core/outbox/drivers/memory/memory.go:84-108 | every message claimed was due and in nobody's hands, is handed out as stored, and every new claim is in the batch |
| OutboxMemory.ClaimHandsOut | internal/core/outbox/drivers/memory/memory.go:84-108 | on the stored fields: a claim hands out, oldest first, messages pending, due and in nobody's hands, claims exactly them, and with room to spare leaves no such message behind |
| OutboxMemory.RefusedIsRetriedIff | internal/core/outbox/domain/message.go:92-114 | a message refused below its maximum attempts is handed out by a claim with room exactly from the refusal plus the backoff on |
| OutboxMemory.ConsecutiveClaimsAreDisjoint | internal/core/outbox/drivers/memory/memory.go:84-108 | two claims in a row share no message, whatever the clock does |
| OutboxMemory.StatusesPartition | internal/core/outbox/drivers/memory/memory.go:141-152 | pending, done and failed add up to the messages enqueued |
| OutboxMemory.Store.Enqueue | internal/core/outbox/drivers/memory/memory.go:55-78 | a new identifier naming the content given, pending, never attempted and due at once, last in the order; nothing at all when cancelled |
| OutboxMemory.Store.Claim | internal/core/outbox/drivers/memory/memory.go:84-108 | the loop hands out the messages pending, due and unclaimed, oldest first up to the limit, all of them if there is room, and claims exactly those |
| OutboxMemory.Store.MarkDone | internal/core/outbox/drivers/memory/memory.go:111-122 | the message is done and unclaimed; an unknown identifier is refused and changes nothing |
| OutboxMemory.Store.MarkFailed | internal/core/outbox/drivers/memory/memory.go:125-138 | attempts, status and due date are those of the attempt, the claim is dropped; an unknown identifier is refused |
| OutboxMemory.Store.PendingCount | internal/core/outbox/drivers/memory/memory.go:141-152 | the number of pending messages, which with the done and failed ones makes all ever enqueued |
| Dispatch.ValidPolicyIs | internal/core/outbox/application/dispatcher.go:94-109 | a policy is accepted exactly when every setting is positive, and an error names one that is not |
| Dispatch.HandsKept | internal/core/outbox/application/dispatcher.go:161-198 | no step of any dispatcher breaks the correspondence between claims and hands |
| Dispatch.AccountsKept | internal/core/outbox/application/dispatcher.go:175-248 | no step breaks the agreement of attempts, statuses and handler calls |
| Dispatch.SchedulesKept | internal/core/outbox/domain/message.go:92-109 | no step starts a call before the backoff of the failure preceding it |
| Dispatch.RunKeepsInv | internal/core/outbox/application/dispatcher.go:144-248 | every step of every interleaving keeps the whole invariant |
| Dispatch.ClaimsAreExactlyTheHands | internal/core/outbox/drivers/memory/memory.go:84-138 | with any number of dispatchers the claims are the disjoint union of the unresolved messages in their hands, each pending, due and equal to its snapshot; with empty hands no claim is left |
| Dispatch.AttemptAccounting | internal/core/outbox/application/dispatcher.go:175-248 | handler calls equal attempts, plus one if done, plus one if mid-delivery, never exceed the maximum; failed exactly when the attempts are used up |
| Dispatch.ResolvedIsForever | internal/core/outbox/drivers/memory/memory.go:111-138 | over any run messages are never lost, contents never change, done and failed are never left |
| Dispatch.CallsWaitForTheBackoff | internal/core/outbox/domain/message.go:86-109 | the call after failure k comes at least base * 2^min(k,10) after it, and base * (2^(k+1) - 2) after the enqueue |
| Dispatch.StepUsesBudget | internal/core/outbox/application/dispatcher.go:175-248 | every recorded delivery strictly lowers the attempts still allowed; only an enqueue adds any |
| Dispatch.DeliveriesAreBounded | internal/core/outbox/application/dispatcher.go:161-248 | statuses partition the messages enqueued and the deliveries recorded are at most the maximum attempts per message |
| OutboxDispatcher.ExhaustedIffFailedByError | internal/core/outbox/application/dispatcher.go:226-248 | the report tells the fate: published exactly when done, exhausted exactly when failed for good without panicking, rescheduled exactly when still pending, a panic as such |
| OutboxDispatcher.DeliveryIsRun | internal/core/outbox/application/dispatcher.go:175-248 | one delivery, published, refused or panicked, is a legal run of the concurrent machine with the same store, clock and worker |
| OutboxDispatcher.ShortRoundRecordsAll | internal/core/outbox/application/dispatcher.go:144-172 | a batch that is not full leaves every message eligible at its claim done or charged one attempt |
| OutboxDispatcher.Dispatcher.Deliver | internal/core/outbox/application/dispatcher.go:175-248 | call, recovered panic, reschedule or mark as one run of the machine; exactly one report, and recording never fails on this store |
| OutboxDispatcher.Dispatcher.DeliverAll | internal/core/outbox/application/dispatcher.go:161-172 | every message of the batch gets its fate, in order, at the instants the handlers take, and no claim of the batch is left |
| OutboxDispatcher.Dispatcher.DrainOnce | internal/core/outbox/application/dispatcher.go:161-172 | claims and delivers one batch and leaves the claims of others as they were; a refused claim is reported and changes nothing, the run included |
| OutboxDispatcher.Dispatcher.CatchUp | internal/core/outbox/application/dispatcher.go:137-154 | unless cancelled makes a claim; ends after ten full batches, on cancellation, or after a claim of its own whose due messages it has all recorded; leaves no claim behind |
| Idempotency.ReserveAgreement | internal/core/idempotency/drivers/postgres/postgres.go:70-133 | when no command fails Redis answers a reservation as memory always, Postgres except exactly at the instant of expiry |
| Idempotency.CompleteAgreement | internal/core/idempotency/drivers/redis/redis.go:129-157 | when no command fails Postgres and Redis complete alike; memory differs exactly on a live key already completed, whose status it does not test |
| Idempotency.CompletedKeyIsReplayed | internal/core/idempotency/drivers/memory/memory.go:61-120 | on every driver a key completed in time is replayed with its response while it lives, and no release reopens it |
| Idempotency.MemoryStore.Reserve | internal/core/idempotency/drivers/memory/memory.go:61-93 | the outcomes on the stored entry: incomplete, cancelled, free or expired and granted, conflict, replay, in flight; only a grant changes an entry |
| Idempotency.MemoryStore.Complete | internal/core/idempotency/drivers/memory/memory.go:96-107 | memorises the response on a live key, its expiry unchanged; refuses an absent or expired one |
| Idempotency.MemoryStore.Release | internal/core/idempotency/drivers/memory/memory.go:112-120 | frees a key that is in flight and never one that is completed |
| Idempotency.MemoryStore.Purge | internal/core/idempotency/drivers/memory/memory.go:123-136 | removes exactly the expired keys, in any order of the walk, and counts them |
| Idempotency.PostgresStore.Upsert | internal/core/idempotency/drivers/postgres/postgres.go:70-105 | the insert-or-take-over statement wins exactly on an absent or expired key; a failed one may have taken effect |
| Idempotency.PostgresStore.Reserve | internal/core/idempotency/drivers/postgres/postgres.go:87-133 | the outcomes on the stored row: incomplete, a failed statement with or without effect, a grant on an absent or expired key, then conflict, replay or in flight from the row that won |
| Idempotency.PostgresStore.Complete | internal/core/idempotency/drivers/postgres/postgres.go:139-154 | completes exactly a live key in flight when the update is answered; a failed one may have taken effect |
| Idempotency.PostgresStore.Release | internal/core/idempotency/drivers/postgres/postgres.go:157-163 | afterwards the key is there exactly if it was completed or the delete failed without effect; every other row is untouched |
| Idempotency.PostgresStore.Purge | internal/core/idempotency/drivers/postgres/postgres.go:166-173 | removes exactly the rows expired strictly before now, and counts them unless the delete failed; a live row stays in any case |
| Idempotency.RedisStore.Reserve | internal/core/idempotency/drivers/redis/redis.go:70-126 | the outcomes on the stored entry: incomplete, a failed SET NX with or without effect, a grant on an absent or expired key, then conflict, replay or in flight |
| Idempotency.RedisStore.Complete | internal/core/idempotency/drivers/redis/redis.go:129-157 | GET then SET XX: completes exactly a live key in flight, keeping its expiry, when both are answered |
| Idempotency.RedisStore.Release | internal/core/idempotency/drivers/redis/redis.go:163-178 | GET then DEL: erases exactly a live key in flight, never a completed one; either command may fail |
| Guard.RunKeepsInv | internal/infrastructure/subscriber/once.go:59-116 | every interleaving of store commands, failing or not, whose commands on a key come in time keeps the invariant of that key |
| Guard.RunKeepsHold | internal/infrastructure/subscriber/once.go:59-116 | over every run in which no release takes the live reservation of another delivery of the key, the part of it that exclusivity rests on |
| Guard.AtMostOneHolder | internal/infrastructure/subscriber/once.go:59-107 | at every instant at most one delivery of a key holds a live reservation, on memory, Postgres and Redis, however late commands come, as long as no release takes the live reservation of another delivery |
| Guard.SuccessIsAlwaysMarked | internal/infrastructure/subscriber/once.go:98-106 | if every command on the key comes in time, after a successful handler the completion is never refused; it can only fail |
| Guard.SuccessesAreSpaced | internal/infrastructure/subscriber/once.go:59-107 | two successful runs for one key were reserved at least a ttl apart, under the same condition |
| Guard.ExclusiveIff | internal/infrastructure/subscriber/once.go:59-107 | over every legal run exclusivity holds of a key at every instant, one more copy included, exactly when no release takes the live reservation of another delivery |
| Guard.ReleasesInTimeAreHarmless | internal/infrastructure/subscriber/once.go:86-96 | a run whose releases of the key all come before their own reservation expires has no such release |
| Guard.ReplaysWereMemorised | internal/core/idempotency/drivers/postgres/postgres.go:108-133 | with no proviso, a replay only returns a response memorised for that key; for that fingerprint too when the key has one fingerprint or its commands come in time |
| Guard.LateReleaseBreaksExclusivity | internal/infrastructure/subscriber/once.go:86-96 | without the proviso exclusivity fails on every driver, whatever the ttl: a release after expiry frees a successor's key |
| Guard.ReleaseIsHarmlessIff | internal/core/idempotency/drivers/memory/memory.go:109-120 | exactly when a release leaves every live reservation of its key in the store, driver by driver, late completions before it included |
| Guard.CompletionMarksAnotherIff | internal/infrastructure/subscriber/once.go:98-106 | exactly when a completion marks the row of another delivery that still holds it live: that one took the key since and the row is in flight |
| Guard.InTimeCompletionIsRefusedIff | internal/core/idempotency/drivers/postgres/postgres.go:139-154 | a completion in time is refused exactly when its row was marked already and the driver tests the status, Postgres in the update and Redis in the read |
| Guard.LateCompletionSpoilsAnother | internal/core/idempotency/drivers/postgres/postgres.go:139-154 | on Postgres, whatever the ttl, a late completion leaves a successor that is itself in time handled and unmarked |
| Guard.FailedReservationLocksIff | internal/core/idempotency/drivers/postgres/postgres.go:70-105 | a failed reservation never runs the handler, and changes what the next copy gets exactly when it took effect on a vacant key: that copy is refused |
| Guard.FailedCompletionIsReplayedIff | internal/infrastructure/subscriber/once.go:98-106 | after a completing command failed the next copy is given the response exactly when the command took effect, and is refused otherwise |
| Guard.FailedReleaseLocksIff | internal/infrastructure/subscriber/once.go:86-96 | after a failed release the handler of the next copy runs exactly when the command took effect |
| Guard.WindowIsTimely | internal/infrastructure/subscriber/once.go:59-107 | less than a ttl after the first possible reservation no command on a key is late, so the provisos hold of every legal run |
| Guard.SuccessesInWindowCoincide | internal/infrastructure/subscriber/once.go:59-107 | within that window two successful deliveries of one key are one, with no proviso |
| Once.EnvelopeLosesNothing | internal/infrastructure/relay/relay.go:55-65 | each field of the envelope is its own field of the message, and the consumer reads back the content enqueued, the identifier and the creation date |
| Once.Consume | internal/infrastructure/subscriber/once.go:59-116 | on every driver runs the handler exactly on a vacant key of a complete envelope whose reservation was answered, answers by how it ended, and acknowledges without a run only a completed key; other keys are untouched |
| Once.CopyIsAcknowledged | internal/infrastructure/subscriber/once.go:79-84 | on every driver, after a success that was marked every further answered copy is acknowledged without running, for as long as the reservation lives |
| Once.FailureIsRetried | internal/infrastructure/subscriber/once.go:86-96 | after a failed handler the next copy runs at once exactly when the release took effect, else it is refused until the expiry |
| Once.PanicLocksUntilExpiry | internal/infrastructure/subscriber/once.go:55-59 | a panicking handler locks the key: copies are refused until exactly the expiry, and run from then on |
| Once.ConsumptionIsRun | internal/infrastructure/subscriber/once.go:59-116 | on every driver and with any failing commands the code's consumption is a legal run of the guard machine from any of its states, with the same rows and answer |
| Once.Bus.Publish | internal/infrastructure/messaging/inproc.go:40-60 | every subscribed handler is called in turn until one panics; exactly the errors answered are joined, in order, and none is exactly when all acknowledged |
| Once.LaterHandlersNeverRun | internal/infrastructure/messaging/inproc.go:40-60 | a second guarded handler of one event type never runs once the first succeeded, and is acknowledged |
| Chain.RunKeepsInv | internal/core/outbox/application/dispatcher.go:175-220 | every step of the whole chain keeps the invariant across its five files |
| Chain.OneHandlerVerdict | internal/core/outbox/application/dispatcher.go:185-247 | one publication to one guarded handler is a run of the guard whose verdict is the bus's answer: delivered, refused by an error, or panicked |
| Chain.VerdictIsOfItsDelivery | internal/infrastructure/messaging/inproc.go:40-60 | in every reachable state the verdict recorded for a subscribed message is that of its own finished delivery, and plain delivery where nobody is subscribed |
| Chain.ChainRefinesDispatch | internal/infrastructure/relay/relay.go:40-47 | every run of the chain is a run of the dispatchers, so their theorems hold of it |
| Chain.ChainRefinesGuard | internal/infrastructure/subscriber/once.go:59-116 | every run of the chain is a run of the guard, in time if the chain is, so its theorems hold of it |
| Chain.DoneMeansHandled | internal/core/outbox/application/dispatcher.go:175-198 | with no proviso on durations, a done and subscribed message had its handler run to success at least once |
| Chain.DeliveriesAreGenuine | internal/infrastructure/relay/relay.go:40-65 | every delivery carries the identifier and type of a message enqueued before; a missing identifier or a conflict never occurs |
| Chain.ExactlyOnceInsideTheWindow | internal/infrastructure/subscriber/once.go:59-107 | with no proviso on durations or failures, a done and subscribed message whose window has not closed has exactly one successful handler run |
| Chain.AtMostOnceInsideTheWindow | internal/infrastructure/subscriber/once.go:59-107 | while the window of a message is open, done or not, at most one of its deliveries ran to success, with no proviso |
| Chain.DeliveryCanFinish | internal/infrastructure/subscriber/once.go:59-107 | from every reachable state a dispatcher about to deliver a subscribed message whose key nobody holds can see its handler succeed and the message done, on every driver |
| Chain.CopyIsReplayed | internal/infrastructure/subscriber/once.go:79-84 | a redelivered envelope whose reservation is completed and lives is replayed without its handler, on every driver |
| Chain.ReplaysAreTheMessages | internal/core/idempotency/drivers/postgres/postgres.go:108-133 | with no proviso, a replay returns a response memorised for that message and its type |
| Election.PopsItsOwn | internal/core/scheduler/drivers/postgres/postgres.go:103-107 | over any run from the entry into `held` to the release, the connection taken out of `held` is the one the same call put in |
| Election.EntitledKept | internal/core/scheduler/drivers/postgres/postgres.go:59-133 | no step takes the lock of a call between election and unlock |
| Election.HeldKept | internal/core/scheduler/drivers/postgres/postgres.go:80-107 | `held` lists exactly the tasks running or just finished, with their connections |
| Election.RunKeepsInv | internal/core/scheduler/drivers/postgres/postgres.go:59-133 | every step of any replicas, goroutines, deaths and failures keeps the invariant |
| Election.GrantIsUndone | internal/core/scheduler/drivers/postgres/postgres.go:69-113 | a session lock is counted and re-entrant: taking it once more and giving it back leaves every lock as it was |
| Election.EndedIsGone | internal/core/scheduler/drivers/postgres/postgres.go:94-127 | a session closed or lost is gone with exactly the locks it owned |
| Election.DeathIsFinal | internal/core/scheduler/drivers/postgres/postgres.go:12-16 | a process that dies stays dead, and no other dies with it |
| Election.OneJobPerKey | internal/core/scheduler/application/runner.go:132-161 | at most one job per lock key runs at a time across all replicas |
| Election.HeldNamesTheOwner | internal/core/scheduler/drivers/postgres/postgres.go:44-50 | `held[task]` names a live connection outside the pool whose session owns the task's key |
| Election.PoolsOwnNothing | internal/core/scheduler/drivers/postgres/postgres.go:94-133 | if no failed lock query was granted, no pooled connection owns a lock and every lock is free once no call is between election and release |
| Election.FailedQueryLeaksIff | internal/core/scheduler/drivers/postgres/postgres.go:69-74 | a failed lock query leaks the lock into the pool exactly when it was granted on a free key |
| Election.LostSessionElectsAnother | internal/core/scheduler/drivers/postgres/postgres.go:12-16 | while a job runs, the loss of a session lets a second job of its key be elected exactly when it is the running job's session |
| Election.Elector.Acquire | internal/core/scheduler/drivers/postgres/postgres.go:59-84 | elects exactly when the task is not in `held`, a connection came and its query was answered and found the key free or its own; fails exactly on a missing connection or a failed query; a legal run of the machine |
| Election.Elector.Release | internal/core/scheduler/drivers/postgres/postgres.go:103-133 | one call is a legal run of the machine that empties the entry of `held`; a fine unlock gives the grant and the connection back, a failed one ends the session and its locks |
| Election.Elector.LockQuery | internal/core/scheduler/drivers/postgres/postgres.go:69-78 | grants exactly a key that is free or the session's own |
| Election.Elector.UnlockQuery | internal/core/scheduler/drivers/postgres/postgres.go:113-131 | gives one grant back exactly when the session owns the key |
| Election.Elector.RunOnce | internal/core/scheduler/application/runner.go:132-176 | the job runs exactly when elected, the election is released whether it succeeds, fails or panics; reports success, failure or nothing for a panic, then a failed release, or else that the call was skipped or its election failed |
| Runner.Validate | internal/core/scheduler/application/runner.go:91-110 | refuses a batch for its first problem in order, accepts it exactly when there is none |
| Runner.AcceptedBatchIsUsable | internal/core/scheduler/domain/task.go:40-63 | an accepted batch has distinct non-empty names, positive periods, jobs, and positive execution bounds, and conversely |
| Runner.ElectionsAreSeparated | internal/core/scheduler/drivers/inproc/inproc.go:40-63 | between two elections of one task in a process there is a release of it |
| Runner.ElectedIff | internal/core/scheduler/drivers/inproc/inproc.go:45-63 | a call elects exactly when every earlier election of its task was followed by a release, so a released task is elected at the next call |
| Runner.Elector.Acquire | internal/core/scheduler/drivers/inproc/inproc.go:45-54 | elected exactly when the calls so far left the task free |
| Runner.Elector.Release | internal/core/scheduler/drivers/inproc/inproc.go:57-63 | the task is free for the next call |
| AsciiText.NormalizeForgetsCaseAndBlanks | internal/core/auth/domain/identity.go:33-45 | two texts have one canonical form exactly when, the blanks around them aside, they differ only in the case of letters |
| AsciiText.NormalizeIs | internal/core/auth/domain/identity.go:33-45 | the canonical form is the text without the blanks around it, letters in lower case |
| AsciiText.NormalizeIsIdempotent | internal/core/auth/domain/identity.go:128-142 | a canonical form is its own canonical form |
| AuthDomain.SubjectIs | internal/core/auth/domain/identity.go:33-45 | a subject is accepted exactly with 1 to 254 characters and no space, tab or line feed, the blanks around it aside, and is then in lower case |
| AuthDomain.PermissionHasThreeSegments | internal/core/auth/domain/permission.go:10-41 | the pattern accepts exactly three segments joined by dots, each a lower-case letter then letters, digits or underscores |
| AuthDomain.PermissionIs | internal/core/auth/domain/permission.go:34-41 | a permission is accepted exactly when, case and the blanks around it aside, it is three segments joined by dots, and is then in lower case |
| AuthDomain.SortUniqueIsCanonical | internal/core/auth/domain/permission.go:73-87 | a role's permissions are those given, once each, in order |
| AuthDomain.AscendingIsUnique | internal/core/auth/domain/permission.go:59-63 | there is one such list, so the map order does not show |
| ByteOrder.LessIs | internal/core/auth/domain/permission.go:85 | strings are ordered by their first difference, a proper prefix first |
| AuthDomain.RoleForgetsOrder | internal/core/auth/domain/permission.go:59-88 | definitions with the same permissions in any order and repetition are equal roles |
| AuthDomain.Sort | internal/core/auth/domain/permission.go:85 | sorts in place: ascending and a permutation |
| AuthDomain.NewRole | internal/core/auth/domain/permission.go:67-88 | whatever the map order, the canonical role; refuses a blank name or a permission never built |
| AuthDomain.Grants | internal/core/auth/domain/permission.go:95-102 | grants exactly the permissions listed, no wildcard |
| AuthDomain.NormalizeAll | internal/core/auth/domain/identity.go:133-142 | the loop keeps the canonical names and drops blank ones |
| AuthDomain.NormalizedRolesAre | internal/core/auth/domain/identity.go:128-142 | a non-empty name is kept exactly when some name given normalises to it |
| AuthHistory.AlwaysWellKeyed | internal/core/auth/drivers/memory/identities.go:17-82 | over any history every record is under its own key, sessions and subjects name existing accounts |
| AuthHistory.VerifyRefinesHistory | internal/core/auth/application/verify.go:24-44 | Verify answers exactly for the token's holder in the history, in time, unrevoked and active; any other case is the one refusal |
| AuthHistory.HolderIsIssued | internal/core/auth/application/authenticate.go:85-99 | with fresh tokens the holder is the identity some authentication issued the token to, unrevoked since |
| AuthHistory.VerifyMeansIssued | internal/core/auth/application/verify.go:24-58 | Verify answers for an identity exactly when some call issued it the token less than a ttl ago, no later call revoked it and its last activation left it active |
| AuthHistory.PurgesAreInvisible | internal/core/auth/drivers/memory/sessions.go:63-75 | inserting a purge anywhere in a history changes no later answer |
| AuthHistory.AuthorizeRefinesHistory | internal/core/auth/drivers/memory/roles.go:48-62 | a permission is granted exactly to an active identity whose last assigned list names, case and blanks aside, a role whose last successful definition mentions it |
| AuthHistory.AuthenticateRefinesHistory | internal/core/auth/application/authenticate.go:32-99 | with fresh identifiers a session opens exactly for the active account registered under the subject, case and blanks aside, with a matching secret; unknown, inactive and wrong secret get one refusal |
| AuthHistory.AccountsAgree | internal/core/auth/drivers/memory/identities.go:17-48 | a subject is indexed exactly when it was registered, with the identifier and digest of that registration |
| AuthHistory.IdentitiesAgree | internal/core/auth/application/identities.go:42-59 | activation and roles stored are those of the last calls that set them |
| AuthHistory.RolesAgree | internal/core/auth/application/roles.go:16-36 | a role stored is the one last successfully defined under its canonical name |
| AuthAccounts.RunKeepsInv | internal/core/auth/drivers/memory/identities.go:17-82 | every interleaving of registrations, reads, write backs and assignments keeps the invariant |
| AuthAccounts.IndexIsInverse | internal/core/auth/drivers/memory/identities.go:17-48 | the subject index and the credentials are mutually inverse |
| AuthAccounts.LookupFindsTheAccount | internal/core/auth/drivers/memory/identities.go:35-48 | under any interleaving a lookup by subject succeeds exactly for a subject with an account, and finds the only one |
| AuthAccounts.DigestIsForever | internal/core/auth/drivers/memory/identities.go:68-82 | an account, its subject and its digest never change after registration |
| AuthAccounts.OneAccountPerSubject | internal/core/auth/drivers/memory/identities.go:17-28 | concurrent registrations of one subject open at most one account |
| AuthAccounts.ExactlyOneAccount | internal/core/auth/application/register.go:29-59 | as soon as one well-formed registration was made, exactly one opened the account |
| AuthAccounts.IndexedWasOpened | internal/core/auth/drivers/memory/identities.go:17-28 | a subject is known exactly when some registration opened an account for it |
| AuthAccounts.OverlappedAssignmentIsLostIff | internal/core/auth/application/identities.go:42-59 | over every run the roles last assigned are ever lost exactly when an activation that had read other roles before the assignment is written back after it |
| AuthStore.Store.SaveIdentity | internal/core/auth/drivers/memory/identities.go:17-28 | stores a credential under a free subject; a taken subject is refused and changes nothing |
| AuthStore.Store.UpdateIdentity | internal/core/auth/drivers/memory/identities.go:68-82 | replaces the identity and keeps the digest |
| AuthStore.Store.BindRoles | internal/core/auth/drivers/memory/roles.go:28-38 | replaces the roles by their canonical form |
| AuthStore.Store.Grants | internal/core/auth/drivers/memory/roles.go:48-62 | the loop grants exactly what some role of an active account carries |
| AuthStore.Store.PurgeExpired | internal/core/auth/drivers/memory/sessions.go:63-75 | removes exactly the expired sessions, in any order of the walk, and counts them |
| AuthStore.UseCases.Register | internal/core/auth/application/register.go:29-59 | every refusal and its order, and otherwise a new active account without roles under the canonical subject; the step of the history theorems |
| AuthStore.UseCases.Authenticate | internal/core/auth/application/authenticate.go:32-99 | a session for a ttl exactly for the known active account with a matching secret and a token drawn, every refusal, nothing else changed; the step of the history theorems |
| AuthStore.UseCases.Verify | internal/core/auth/application/verify.go:24-44 | the identity of a session stored, unexpired and active, or the one refusal; the step of the history theorems |
| AuthStore.UseCases.Revoke | internal/core/auth/application/verify.go:51-58 | the session is gone; an empty token is refused; the step of the history theorems |
| AuthStore.UseCases.SetActive | internal/core/auth/application/identities.go:42-59 | read, transform and write back change the activation and nothing else; the step of the history theorems |
| AuthStore.UseCases.DefineRole | internal/core/auth/application/roles.go:16-36 | the role carries exactly the permissions given in canonical form; one malformed permission refuses the definition whole |
| AuthStore.UseCases.AssignRoles | internal/core/auth/application/roles.go:44-54 | the account carries exactly the canonical non-blank names given; the step of the history theorems |
| AuthStore.UseCases.Authorize | internal/core/auth/application/authorize.go:21-31 | granted exactly if some role of the active account carries the permission; the step of the history theorems |
| Dynconf.QualifyIsInjective | internal/core/dynconf/domain/dynconf.go:81 | cache keys never collide, across kinds either |
| Dynconf.ClockMoves | internal/core/dynconf/drivers/postgres/postgres.go:91-107 | time passes on one replica's clock at a time |
| Dynconf.RunIsSound | internal/core/dynconf/drivers/postgres/postgres.go:91-107 | every step keeps each cached value said by the table no earlier than its expiry minus the ttl |
| Dynconf.AnswersAreFresh | internal/core/dynconf/drivers/postgres/postgres.go:91-132 | over any interleaving on any replicas, each with its own clock, an answer is what the table said, or the absence of a failed read, later on that replica's clock than the lookup's start minus the ttl |
| Dynconf.PropagationIsBounded | internal/core/dynconf/drivers/postgres/postgres.go:11-14 | once the table says one value and reads of that row do not fail, lookups begun a ttl later on their replica's clock answer it, on every replica |
| Dynconf.RacedWriteIsHiddenIff | internal/core/dynconf/drivers/postgres/postgres.go:135-159 | a lookup racing a write makes the writer's own replica answer the old value exactly when the ttl is positive |
| Dynconf.OwnWritesAreRead | internal/core/dynconf/drivers/postgres/postgres.go:91-159 | a write that succeeded, then an undisturbed lookup of the same row: the text written, from every state and for every ttl |
| Dynconf.Store.Read | internal/core/dynconf/drivers/postgres/postgres.go:91-107 | an uninterrupted lookup answers the cached value exactly while it is fresh, else the text stored in the table exactly if there is one, or absence in an outage; it keeps the answer for a ttl and is a run of the machine |
| Dynconf.Store.Set | internal/core/dynconf/drivers/postgres/postgres.go:135-159 | a write reaches the table exactly when its statement takes effect, and empties the local cache exactly when it is known to have succeeded |
| Base64Url.DecodeUndoesEncode | internal/pkg/pagination/pagination.go:41-54 | unpadded base64url, sections 3.2 and 5 of RFC 4648: decoding undoes encoding for every byte string |
| Base64Url.SymbolIs | internal/pkg/pagination/pagination.go:41-44 | the URL-safe alphabet of RFC 4648, table 2 |
| Base64Url.GroupIsRegrouped | internal/pkg/pagination/pagination.go:41-44 | four sextets are the 24 bits of three bytes, most significant first |
| Base64Url.DecodedIsEncodedIff | internal/pkg/pagination/pagination.go:51-54 | a decoded text is the encoding of its bytes exactly when it has no line end and zero leftover bits |
| Base64Url.LineEndsDoNotMatter | internal/pkg/pagination/pagination.go:51-54 | line ends are skipped by the decoder wherever they stand |
| Pagination.DecodeOfEncode | internal/pkg/pagination/pagination.go:41-64 | an encoded cursor decodes to its identifier, bars included, and its microsecond; an empty identifier is refused |
| Pagination.DecodeIs | internal/pkg/pagination/pagination.go:46-64 | a text is a cursor exactly as the base64 form of a 64-bit numeral, a bar and an identifier; the first thing wrong with any other decides its error |
| Pagination.CursorRoundTrip | internal/pkg/pagination/pagination.go:41-64 | the decoded cursor is the original floored to the microsecond exactly when that microsecond fits 64 bits |
| Pagination.BeforeIsTotal | internal/pkg/pagination/pagination.go:27-35 | rows are ordered by microsecond, then by identifier, and two different rows always are |
| Pagination.CursorSeparates | internal/pkg/pagination/pagination.go:76-88 | the cursor of a row selects exactly the rows after it |
| Pagination.WalkGivesTheList | internal/pkg/pagination/pagination.go:101-125 | the pages of a finished walk concatenate to the list, all but the last are full and announce more, the last is empty only if the list is |
| Pagination.WalkGoesOn | internal/pkg/pagination/pagination.go:76-125 | a page that announces more has a successor |
| Pagination.WalkIsBounded | internal/pkg/pagination/pagination.go:101-125 | a walk never starts a page past the end, so it terminates |
| DeepMerge.MergeIsIdempotent | internal/config/loader.go:162-180 | applying a layer twice is applying it once |
| DeepMerge.LeafOfMerge | internal/config/loader.go:162-180 | a leaf of the merge is the later layer's where that layer touches the path, else the earlier one's |
| DeepMerge.TouchesIff | internal/config/loader.go:162-180 | a layer touches a path exactly when it defines it or puts a non-table on a proper prefix |
| DeepMerge.LastTouchDecides | internal/config/loader.go:131-147 | the last layer that touches a path decides its leaf |
| DeepMerge.LayerDecidesIff | internal/config/loader.go:131-147 | whatever a layer says of a path is in the result exactly when no later layer touches the path |
| DeepMerge.LocalThenEnvThenGroups | internal/config/loader.go:119-147 | the local file decides every path it touches, else the environment's file those it touches, else the last group file that touches the path |
| DeepMerge.UntouchedHasNoLeaf | internal/config/loader.go:131-147 | a path no layer touches has no leaf |
| DeepMerge.MergeIsNotAssociative | internal/config/loader.go:162-180 | grouping the later layers first can bring back what a leaf between two tables hid |
| DeepMerge.MergeIsAssociativeIff | internal/config/loader.go:162-180 | the two groupings of three layers agree exactly when no leaf of the middle one hides, between two tables, something the last does not redefine |
| DeepMerge.Apply | internal/config/loader.go:167-180 | whatever the iteration order the table becomes the recursive merge, and no other existing table is written |
| DeepMerge.MergeFile | internal/config/loader.go:149-160 | a missing optional file is skipped, a broken one refused, a document merged |
| DeepMerge.MergeLayers | internal/config/loader.go:119-147 | the groups in order without the local file, then the environment, then local: a new table standing for their merge, nothing else written; it succeeds exactly when every group file is a document and the other two are documents or missing, and otherwise names the first bad one |
| Coverage.MergedIs | tools/covergate/main.go:343-374 | the merge holds exactly the ranges mentioned, each covered exactly when some line executed it |
| Coverage.MergeForgetsOrder | tools/covergate/main.go:343-374 | permuting and duplicating lines changes nothing |
| Coverage.ZeroLinesChangeNothing | tools/covergate/main.go:343-358 | more zero-count lines for known ranges change nothing |
| Coverage.ExtraLinesNeverLower | tools/covergate/main.go:343-374 | more lines for known ranges never lower a rate when the ranges they newly cover count no less than zero and the totals fit |
| Coverage.ExtraLineNeverLowersIff | tools/covergate/main.go:343-374 | one more line for a known range, agreeing on its size, never lowers a rate exactly when it executed nothing or its statement count is not negative |
| Coverage.RateForgetsOrder | tools/covergate/main.go:379-383 | a rate is the same in whatever order the map is walked |
| Coverage.RateExtremes | tools/covergate/main.go:295-310 | nothing kept, or nothing kept covered, has rate 0; everything kept covered has rate 100 |
| Coverage.LineIsRead | tools/covergate/main.go:388-407 | a line of a range and two numerals is read back exactly when both numbers fit 64 bits, negative ones included, and otherwise the first that does not is blamed |
| Coverage.LineIsItsWords | tools/covergate/main.go:388-393 | a line is read from its three words whatever blanks stand between and around them, and refused for any other number of words |
| Coverage.ReadUndoesWrite | tools/covergate/main.go:359-374 | a profile written line by line is read back line by line |
| Coverage.RangeHeldIff | tools/covergate/main.go:295-310 | over all profiles whose other ranges count no less than zero and whose total fits, the rates stay within 0 and 100 exactly when the statement count of one line is not negative |
| Coverage.NegativeLineBreaksTheRange | tools/covergate/main.go:388-407 | for every line with a negative count, the text of a two-line profile that is read and has a rate below 0 or above 100 |
| Coverage.TotalsMustFit | tools/covergate/main.go:295-310 | with non-negative counts and totals up to a bound, rates are percentages exactly when the bound fits 64 bits |
| Coverage.PathsAgree | tools/covergate/main.go:409-434 | lines of one range always name one file |
| Coverage.FileOfRange | tools/covergate/main.go:409-434 | the file of a range is its text up to the last colon without the module prefix |
| Coverage.Rate | tools/covergate/main.go:295-310 | the loop, wrapping at every addition, computes the weighted rate of the kept blocks |
| Coverage.ParseProfile | tools/covergate/main.go:336-384 | the blocks of the merged entries in some order of the map, or the first unreadable line and its error |

## Left out

- The Postgres outbox driver: the exclusivity of its claim rests on a transaction the dispatcher does not open.
- The wrap-around of the 64-bit identifier counter of the in-memory outbox.
- Go pointer identity and defensive copies of messages and responses: entities of the delivery chain are values; only the configuration tables are modelled on the heap, where aliasing is the point.
- Interleavings inside one class method: a class runs one call at a time, and the machines carry the concurrency.
- Context deadlines: cancellation is an instant in the dispatcher and a flag elsewhere; the clean-stop path of the two Run loops and their tickers is not modelled.
- Process crashes of the in-memory stores, clock skew between the replicas of the guard, and the rounding of Redis expiries to milliseconds.
- A pool that discards broken connections: a connection whose lock query failed goes back to the pool here, which is the worse case.
- Replicated advisory locks and primary failover, beyond the exact condition for a lost session.
- LockKey is an arbitrary function to integers; digests, tokens and secret comparison are arbitrary values and functions.
- Unicode: lower-casing, trimming and blanks are those of ASCII everywhere.
- YAML decoding, variable expansion, field validators, defaults, module factories and composition roots.
- The ratchet, exclusion and report printing of the coverage gate, and the line-length limit of its scanner.
- Coverage.RangeHeldIff: selects blocks by path, which is all the gate uses, and takes a rate as the exact quotient of two 64-bit totals, without the rounding of the conversion to floating point.
- AsciiText.NormalizeForgetsCaseAndBlanks: lower-casing and blanks of ASCII only.
- AsciiText.NormalizeIsIdempotent: lower-casing and blanks of ASCII only.
- Kafka, RabbitMQ, HTTP, telemetry, logging, disk and audit drivers, the generator and the command line.
- Flag parsing, the message-of-error texts, and the small `result` and `fp` combinators.
