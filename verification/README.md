# At-least-once notification delivery, verified

This project models the delivery pipeline of the notification service: a
transactional outbox in PostgreSQL, leased relays that move outbox rows to a
Redis stream, a Redis consumer group, and workers that move notification rows
by compare-and-set. Every guard in the code is local (a status check, an attempt
count check, a locker check). The guarantees are global, and they are proved
here against crashes, duplicated messages, stale snapshots, lapsed leases and
publish errors.

`dafny verify dfyconfig.toml` checks everything.

## How it is built

- **Specification of the transactions.** `Tables` says what each database
  transaction does to the three tables, `Delivery` and `Retry` what a worker
  concludes from one HTTP attempt, `Message` and `Uuids` what is on the wire.
- **The code, statement by statement.** `Repository`, `OutboxStore`,
  `Processors`, `Consumers` and `Retry.ComputeDelay` are classes and methods with
  the source's loops, branches and early exits. Each is proved equal to the
  transaction or function that specifies it, or to a complete account of what
  its loop did. I/O appears as collaborators (`Dispatcher`, `Publisher`,
  `Handler`, `Group`) that may answer anything.
- **The concurrent system.** `Pipeline` is a step system of nineteen kinds of
  steps over the tables, the stream, the group's pending list and acked set, any
  number of relays and workers with their local state, and a clock. One
  transaction or one Redis command is one step; a crash of any relay or worker,
  a lost connection (`Abandon`), an XADD that fails after having appended, and
  any interleaving are runs of it. The log in the state is a history variable
  that no step reads.
- **The reference.** `Ledgers` is the life of one notification as a sequential
  machine, with no concurrency in sight. `PipelineRefinement.StepRefines` shows
  that every step of the system is, for each notification, one move of that
  machine or a stutter; `Guarantees` reads the conservation laws, the dispatch
  budget and the history grammar off the machine's invariant.
- **Safety over all runs.** `NoLostWork`, `Leases` and `Schedules` carry three
  further invariants of their own.
- **Progress.** `Laps` and `Progress` say what EVERY undisturbed run of one relay
  and one worker does, however their steps interleave, wherever claims and pages
  are cut and whatever the dispatcher answers; `Loops` says that the loops end and
  never stick; `Calm` and `Rounds` show that such runs exist. `Orphans`,
  `Earliness` and `Duplicates` give the exact conditions for what the code does not
  guarantee, and reachable instances.
- **Evidence.** `Evidence` ties the outcome in the tables to the dispatcher's
  answers: no notification is succeeded without a clean 2xx.

A *lap* (`Laps.Lap`) is any undisturbed stretch that has a moment at which all
outbox rows it began with are published, all pending entries are idle enough and
the idle worker starts an auto-claim scan, and that ends, the worker idle again,
once all entries of that moment have been read. Ticking until everything is due,
calling PublishDue until nothing is unpublished, one scan and reads to the end of
the stream make one; so do looser interleavings.

## What is false of the code

- *Every notification is finished in the end.* A `delivering` row whose worker is
  gone, or whose worker holds a stale attempt count, stays `delivering` forever.
  `Orphans.FinishableIffNotStuck` gives the exact condition;
  `Orphans.CrashStrands` and `Duplicates.StaleSnapshotStrands` are reachable
  instances.
- *A retry is not dispatched before next_attempt_at.* The worker never looks at
  that column. `Earliness.MarkEarlyIff` gives the exact condition on the state, and
  `Earliness.WorkersMarkEarlyIffLooming` the one for the workers alone;
  `Duplicates.EarlyDispatchHappens` is a reachable instance.
- *A relay that lost its claim changes nothing.* This needs distinct locker ids;
  the fallback id "relay" is shared.
  `Leases.MarkPublishedIffHeld` and `Leases.MarkFailedIffHeld` give the exact
  condition, `Leases.SharedLockerSettlesTakenOverRow` a reachable instance.
- *The backoff is min(base * 2^(n-1), cap).* For a base above the cap the first
  delay is the base, and beyond 64 bits the doubling turns negative.
  `Retry.BackoffAsDocumented` gives the exact condition on the policy.
- *A failed attempt has an error message.* Not if the transport error's own text
  is empty; `Delivery.FailureHasMessage` gives the exact condition.

## Model

| member | source | states |
|---|---|---|
| PipelineRefinement.StepRefines | internal/notification/ent_repository.go:160-264 | Refinement: each of the nineteen kinds of steps, in any interleaving, with any stale snapshot or duplicate, is for every notification one move of the sequential machine or leaves its row, history and counts alone |
| PipelineRefinement.AppearsFresh | internal/notification/ent_repository.go:32-64 | A notification comes into being only by creation: pending, with no attempts, the max_attempts asked for, and exactly one outbox row, pending, of its own and due now |
| PipelineRefinement.ReachableInv | internal/notification/ent_repository.go:160-264 | The structural, exclusion and ledger invariants hold in every reachable state |
| PipelineShape.StepKeepsShape | internal/delivery/processor.go:30-78 | The structural invariant is inductive: rows, entries, batches and snapshots refer to things that exist, and a worker's conclusion follows from its own snapshot |
| PipelineShape.CurrentParses | internal/stream/message.go:38-58 | Any entry a worker holds parses, and names the notification of the row it was built from |
| Ledgers.MovesKeepSound | internal/notification/ent_repository.go:181-280 | Every move of the sequential machine, in which an outcome takes an answered Deliver call for its mark, keeps the balance, the attempt budget and the history grammar |
| Ledgers.TerminalMoves | internal/notification/ent_repository.go:99-118 | Succeeded is absorbing; failed is left only by a manual retry, to pending |
| Guarantees.ConservationOfWork | internal/notification/ent_repository.go:106-129 | In every reachable state a notification's outbox rows are its attempt rows plus one while it is not terminal, and also one plus its manual retries plus its retrying attempts |
| Guarantees.DispatchExclusion | internal/notification/ent_repository.go:160-176 | At most one worker is between a successful MarkDelivering and its record for a notification, and then the row is delivering |
| Guarantees.DispatchBudget | internal/delivery/processor.go:42-47 | Successful MarkDelivering calls are the attempt rows plus one while delivering; since creation or the last manual retry there are at most max_attempts of them, no more answered Deliver calls than those, and at least as many as attempts counted |
| Evidence.OutcomeIsDelivered | internal/delivery/processor.go:46-77 | In every reachable state a succeeded, failed or retrying notification has had an answered Deliver call since creation or the last manual retry, and the last answer decides: succeeded exactly for a clean 2xx, retrying exactly if attempts are left and it was a transport error, 408, 409, 425, 429 or 5xx, else failed; the last attempt row carries its status code and error |
| Evidence.StepKeepsAttested | internal/delivery/processor.go:46-62 | Every step keeps this: what a worker is about to record follows from the last logged answer, and what is recorded agrees with it |
| Guarantees.AttemptBound | internal/delivery/retry.go:27-30 | attempt_count never exceeds max_attempts and is strictly below it while the status is not terminal, stale snapshots notwithstanding |
| Guarantees.HistoryGrammar | internal/notification/ent_repository.go:181-280 | The attempt rows in commit order are one closed epoch per manual retry and one open epoch, each numbered 1 to k within max_attempts and retrying but for its last row; closed epochs end in failed, the open one agrees with status and attempt_count |
| Guarantees.RetriesPerFailure | internal/notification/ent_repository.go:92-135 | However many retry calls race, the manual retries that took effect are at most the visits to failed, one failed row each; a succeeded row is unique and last |
| Guarantees.ManualRetryReopens | internal/notification/ent_repository.go:92-135 | A manual retry takes effect exactly on a failed notification, which is then pending with all its attempts again and has a new outbox row that is due now; otherwise nothing changes |
| Guarantees.TerminalStability | internal/notification/ent_repository.go:99-126 | Over any run a succeeded notification keeps its row, its attempt rows and the set of its outbox rows, and so does a failed one that no manual retry resets |
| NoLostWork.StepLossless | internal/stream/redis.go:135-148 | Every step keeps this: each notification has a newest outbox row of its own, and only messages of terminal notifications or of older rows are acked or about to be |
| NoLostWork.StepRetires | internal/notification/ent_repository.go:92-135 | No step brings back a message whose notification is terminal or has a newer row |
| NoLostWork.NeverMalformed | internal/stream/redis.go:136-142 | No relay-published entry is ever acked as malformed |
| NoLostWork.WorkIsNeverLost | internal/delivery/processor.go:30-78 | In every reachable state a non-terminal notification's newest outbox row is pending, publishing, or carried by a stream entry, and every entry carrying it is unacked and still to be read or reclaimed |
| Leases.LockIsLatestClaim | internal/outbox/postgres_store.go:41-48 | A row is publishing exactly while a claim stands, and locked_by and locked_at are that claim's |
| Leases.ClaimsFarApart | internal/outbox/postgres_store.go:28-40 | Two claims of a row with no release or publication between them are more than five minutes apart |
| Leases.MarkPublishedIffHeld | internal/outbox/postgres_store.go:69-86 | MarkPublished publishes its row, and only that row, exactly when the row's standing claim bears the caller's locker; otherwise nothing changes but the relay giving up its batch |
| Leases.MarkFailedIffHeld | internal/outbox/postgres_store.go:90-106 | The same for MarkFailed, which returns the row to pending with the reason |
| Leases.TakenOverRelayChangesNothing | internal/outbox/postgres_store.go:67-117 | With distinct locker ids, a relay whose row is not, or no longer, under its own claim changes no table through MarkPublished or MarkFailed |
| Leases.SharedLockerSettlesTakenOverRow | internal/outbox/relay.go:18-20 | With the shared fallback locker id a reachable relay settles a row that another relay has taken over |
| Leases.PublishedIsAbsorbing | internal/outbox/postgres_store.go:32-36 | Over any run a published outbox row never changes again |
| Leases.PublishedRowIsInStream | internal/outbox/relay.go:31-41 | A published row's stream_id names an entry whose message carries exactly that row's id and notification id |
| Leases.NoEarlyPublish | internal/outbox/postgres_store.go:32 | Every stream entry was appended no earlier than its row's scheduled_at |
| Schedules.ScheduleCoherence | internal/notification/ent_repository.go:221-260 | next_attempt_at is set exactly while retrying, equals scheduled_at of the newest outbox row, and lies the delay of attempt n after the recording worker's decision: positive for a safe policy, and min(base * 2^(n-1), cap) if moreover the base does not exceed the cap |
| Earliness.WorkersMarkEarlyIffLooming | internal/delivery/processor.go:31-42 | For a waiting retry: workers that reclaim after a given idle time can come to mark it before next_attempt_at if and only if one of its entries is unread, or pending and reclaimable in time, or in the batch of a worker that has not marked it yet |
| Earliness.MarkEarlyIffLoomingOrAppended | internal/stream/redis.go:103-131 | The whole system can do so if and only if such an entry exists or a relay can still append a message of the notification in time |
| Earliness.MarkEarlyIff | internal/outbox/postgres_store.go:28-50 | Read off the state, provided no relay holds an event of the notification behind another: the whole system can mark a waiting retry early if and only if one of its entries is in reach of a worker, or a relay is about to append or to release one of its rows, or one of its rows can be claimed before next_attempt_at |
| Earliness.SafelyWaitsUntilDue | internal/outbox/postgres_store.go:32-36 | If none of these holds, then in every run the notification goes on waiting, none of them comes about and nobody marks it before its time |
| Earliness.EarlyOnlyFromOlderRow | internal/delivery/processor.go:31-42 | A worker about to dispatch before next_attempt_at is working a message of an older outbox row |
| Duplicates.EarlyDispatchHappens | cmd/worker/main.go:70 | Reachable instance: from a state with a single worker, a run whose reclaims all wait for thirty idle seconds brings a worker to mark a retry early |
| Duplicates.StaleSnapshotStrands | internal/notification/ent_repository.go:188-204 | Reachable instance: a notification that was not stuck becomes stuck by the mark of a worker |
| Orphans.StuckForever | internal/notification/ent_repository.go:160-175 | A delivering notification no worker owns with the current attempt count keeps its row unchanged over every run |
| Orphans.DeliveringResolvesIffOwned | internal/delivery/processor.go:42-77 | A delivering notification can ever leave that status if and only if some worker has it in flight with the current attempt count |
| Orphans.FinishableIffNotStuck | internal/delivery/processor.go:30-78 | A notification can still come to succeeded or failed if and only if it is not delivering without such a worker |
| Orphans.CrashStrands | internal/delivery/processor.go:42-47 | Reachable instance: a notification that was not stuck becomes stuck by the crash of a worker |
| Progress.EveryLiveNotificationCanSucceed | internal/stream/redis.go:75-131 | From every reachable state, one idle relay and one idle worker, undisturbed and answered with 2xx, bring every pending or retrying notification to succeeded, whatever their batch sizes and whatever is stuck around them |
| Progress.NotificationDrains | internal/delivery/processor.go:46-77 | Whatever the dispatcher answers and whatever else is stuck, every undisturbed run of as many laps as a notification had attempts left ends with it terminal, if and only if it was not delivering at the start |
| Progress.FaultFreeDrain | internal/outbox/relay.go:26-44 | From every reachable state with the worker idle, every undisturbed run of twenty laps ends with exactly those notifications terminal that were not delivering, after at most as many Deliver calls as attempts were left in all |
| Progress.LapSucceeds | internal/delivery/processor.go:30-62 | Every lap with 2xx answers brings every pending or retrying notification to succeeded |
| Progress.LapsHappen | internal/stream/redis.go:75-131 | From every reachable state with relay and worker idle there are runs of any number of laps |
| Laps.LapVisits | internal/delivery/processor.go:30-78 | Every lap, from every reachable state with the worker idle, attempts every live notification |
| Laps.DispatchesArePaidFor | internal/delivery/processor.go:46-47 | At every moment of every undisturbed run the Deliver calls made are at most the attempts that were left at its start |
| Laps.StepKeepsPursuit | internal/stream/redis.go:75-131 | In an undisturbed run no entry is passed over: every step keeps it read later, in the worker's batch, ahead of the scan, or its notification attempted |
| Laps.StepKeepsDuring | internal/delivery/processor.go:42-77 | In an undisturbed run every step keeps snapshots current, attempts paid for, and every notification as it was, in flight or attempted |
| Loops.EnoughClaimsPublishAll | internal/outbox/relay.go:26-44 | Every undisturbed run of the relay that starts idle with everything due, makes as many claims as rows are unpublished, of whatever batch size, and ends idle has published every row |
| Loops.BatchesRunOut | internal/stream/redis.go:75-131 | Between two looks for new work relay and worker take only boundedly many steps |
| Loops.BatchesNeverStick | internal/stream/redis.go:135-148 | As long as an undisturbed relay or worker has anything in hand, it can take a step on it |
| Calm.HandleLive | internal/delivery/processor.go:30-78 | The worker's steps of the concurrent system on one live message add up to the undisturbed Process call followed by an ack |
| Processing.ProcessOutcome | internal/delivery/processor.go:30-45 | Undisturbed, Process fails exactly for a missing or an already delivering notification, dispatches exactly for a pending or retrying one, and otherwise touches nothing |
| Processing.ProcessEffect | internal/delivery/processor.go:46-77 | A dispatching call moves only its own notification and adds one attempt row with the answer's status code and error. It ends succeeded exactly on a clean 2xx, and retrying exactly if attempts remain and the cause is a transport error, 408, 409, 425, 429 or 5xx, with a new pending outbox row due the delay of this attempt from now; else failed |
| Processors.Processor.Process | internal/delivery/processor.go:30-78 | The method is that call for whatever the dispatcher answers, with the same outcome stated again, or, if a store call fails, leaves nothing, the mark alone or all of it; Deliver is called at most once, with the loaded snapshot, and without a store error exactly for a pending or retrying notification |
| Processors.Processor.DecideRetry | internal/delivery/retry.go:27-38 | The method decides to retry exactly when attempts remain and the cause is transient, with the delay of this very attempt |
| Repository.EntRepository.CreateNotification | internal/notification/ent_repository.go:32-64 | A pending notification with the max_attempts given and its first outbox row, due now, appear together, or on a database error together or not at all |
| Repository.EntRepository.ListDeliveryAttempts | internal/notification/ent_repository.go:74-87 | The notification's attempt rows, all of them and in commit order, or a database error |
| Repository.EntRepository.RetryFailedNotification | internal/notification/ent_repository.go:92-135 | Not found exactly for a missing and conflict exactly for a not failed notification; else it is pending with count 0 and has a new outbox row due now; on a database error all of it or nothing |
| Repository.EntRepository.LoadForDelivery | internal/notification/ent_repository.go:140-155 | The current snapshot, or not found, or a database error |
| Repository.EntRepository.MarkDelivering | internal/notification/ent_repository.go:160-176 | Compare-and-set from pending or retrying to delivering, else a conflict and no change; on a database error either |
| Repository.EntRepository.RecordSuccess | internal/notification/ent_repository.go:181-209 | Row and attempt row change together, only from delivering with the expected count, else a conflict and no change; on a database error all of it or nothing |
| Repository.EntRepository.RecordFailure | internal/notification/ent_repository.go:214-264 | Row, attempt row and, exactly when rescheduled, a new outbox row change together under the same guard; on a database error all of it or nothing |
| Repository.EntRepository.CreateAttempt | internal/notification/ent_repository.go:266-280 | One attempt row is appended, with number and status, with the status code exactly if positive and the message exactly if not empty; or a database error and no row |
| OutboxStore.PostgresStore.ClaimDue | internal/outbox/postgres_store.go:24-65 | Of the due, unlocked rows that are pending or locked for over five minutes, the claimed are all, or as many as the limit (50 if not positive) and then first by scheduled_at and created_at; each is returned once as it is and locked to the caller, others are untouched; on an error nothing is returned and either nothing or such a claim has happened |
| Claiming.ClaimMeaning | internal/outbox/postgres_store.go:28-40 | The claim of the step system is exactly that selection |
| OutboxStore.PostgresStore.MarkPublished | internal/outbox/postgres_store.go:69-86 | The conditional update and its lost-claim error; on a database error the update or nothing |
| OutboxStore.PostgresStore.MarkFailed | internal/outbox/postgres_store.go:90-106 | The conditional release and its lost-claim error; on a database error the release or nothing |
| OutboxStore.PostgresStore.RequireOneRow | internal/outbox/postgres_store.go:108-117 | A lost claim is reported exactly when the update did not hit one row, unless that number is unavailable |
| OutboxStore.Relay.constructor | internal/outbox/relay.go:14-22 | The defaults for batch size and locker id |
| OutboxStore.Relay.PublishDue | internal/outbox/relay.go:26-44 | For any commits of others between its statements, given as an input: of the rows they leave alone, every one before the error, or all on success, is published with an entry of its own where the publisher succeeded and pending with the publisher's reason where it did not; nothing after the error was published and those rows are exactly as claimed; a claim is lost only on a row they changed, and any other error is a failing database call |
| Claiming.SomeClaim | internal/outbox/postgres_store.go:28-40 | Whatever rows are due, a claim in that sense exists |
| Consumers.Consumer.ProcessMessage | internal/stream/redis.go:135-148 | A malformed entry is acked and never reaches the processor; for any other the processor is called once with its notification id, for a relay-published one that of its event, and it is acked exactly if accepted; no error is returned exactly if it was acked |
| Consumers.Consumer.ReadAndProcess | internal/stream/redis.go:75-98 | Unless the XREADGROUP fails, each new entry of the page is processed once and in order despite errors; exactly those without an error are acked and leave the pending list; as many deserved acks are missing as XACK calls failed; and an error is returned exactly when some entry was not acked |
| Consumers.Consumer.ClaimAndProcess | internal/stream/redis.go:103-131 | For every count, the paged scan terminates, and unless an XAUTOCLAIM call failed it processes exactly what a one-shot filter of the pending list for idle entries gives, each once and in order, whatever fails on the way; acks and the error are as above; a failing XAUTOCLAIM leaves a prefix of that |
| Consumers.FaultlessWork | internal/stream/redis.go:135-148 | With no failing XACK the acked entries of a page are exactly the malformed ones and those the processor accepted |
| Consumers.BuiltPage | internal/stream/redis.go:143 | For a page of relay-published messages the processor is asked for the notifications of their events, in order |
| Consumers.BuiltPageDeserves | internal/stream/redis.go:143-147 | And each of them deserves its ack exactly if its own call was accepted |
| Consumers.AccountedConcat | internal/stream/redis.go:119-129 | The accounts of two pages are the account of their concatenation, so page boundaries do not matter |
| Consumers.IdlePageConcat | internal/stream/redis.go:107-114 | Consecutive pages of idle entries concatenate to the one-shot filter |
| Message.ParseInvertsBuild | internal/stream/message.go:30-58 | Parsing what was built recovers both ids, and the event type except that an empty one becomes the default |
| Message.WireFormat | internal/stream/message.go:16-36 | On the wire are three text fields by those names, the ids in their 36-character form |
| Message.ParsedFields | internal/stream/message.go:40-58 | Whatever the message, what is parsed are the values of its own fields, the event type defaulting if missing, empty or not text |
| Message.PoisonIffBadId | internal/stream/message.go:40-74 | A message is malformed exactly when one of its two id fields is missing, not text, or not one of the four text forms of a UUID |
| Uuids.ParseUuidText | internal/stream/message.go:32-69 | The 36-character text form of every UUID parses back to it, and so do its bare, braced and URN forms |
| Uuids.UuidTextForm | internal/stream/message.go:32-33 | The text form has dashes at the four places of section 4 of RFC 9562 and lower-case hex digits of the id elsewhere |
| Delivery.FailureHasMessage | internal/delivery/processor.go:80-91 | The recorded message is the transport error's if there is one, and empty exactly for a success or for a transport error with empty text |
| Delivery.ConclusionSound | internal/delivery/processor.go:46-72 | What is recorded has the answer's status code and error and is a success exactly for a clean 2xx; a failure has a next attempt exactly when attempts are left and the cause is transient, the delay of this attempt from now, and is terminal otherwise |
| Retry.ComputeDelay | internal/delivery/retry.go:40-55 | The doubling loop computes the specified delay, with 64-bit wrap-around |
| Retry.DelayClosedForm | internal/delivery/retry.go:40-55 | For a safe policy the loop gives min(base * 2^(n-1), cap) if and only if it runs at least once or the base does not exceed the cap, and the delay is positive |
| Retry.BackoffAsDocumented | internal/delivery/retry.go:40-55 | For every policy: all delays are positive if and only if it is safe, and all are the documented backoff if and only if moreover the base does not exceed the cap |
| Retry.HugeCapOverflows | internal/delivery/retry.go:47-53 | Concrete policy with base below cap whose second delay is negative |
| Retry.DefaultDelay | internal/delivery/retry.go:18-23 | The default policy waits 2, 4, 8, ... seconds, up to five minutes |
| Retry.DelayMonotone | internal/delivery/retry.go:40-55 | Later attempts never wait less, and none waits longer than the cap |
| Retry.TotalDelayBound | internal/delivery/retry.go:40-55 | The delays between m attempts sum to at most (m - 1) caps |
| Retry.DecideFailure | internal/delivery/retry.go:27-66 | A failed attempt is retried or terminal, never both; it is retried exactly when attempts remain and the cause is a transport error, 408, 409, 425, 429 or 5xx, after min(base * 2^(n-1), cap) for attempt n under a safe policy with its base within its cap |
| Retry.DecideMeaning | internal/delivery/retry.go:27-38 | The decision for every result, and its delay, that of this very attempt |
| Retry.FallbackDelay | internal/delivery/retry.go:40-46 | A base or cap that is not positive counts as two seconds or five minutes |

A retry policy is *safe* when doubling its base reaches the cap before it
leaves 64 bits; every base below 2^62 ns with a cap of at most 2^62 ns (about 146
years) is, and so are the defaults.

## Left out

- Loss of Redis entries: the repository's README.md (lines 99-104) accepts that
  window; appended entries survive here, otherwise no-lost-work is false. Stream
  trimming does not occur.
- HTTP transport, the network guard, request headers, body, URL and durations:
  `Deliver` may answer anything; none of these fields steers the state machine.
- Validation, service layer and routing: only the range 1 to 20 of max_attempts
  is kept, as the guard of the `Create` step.
- Generated database code, configuration, migrations, signals and tickers: their
  loops become "any relay or worker may step at any time".
- SQL isolation and SKIP LOCKED: a transaction is one atomic step, and rows held
  by other transactions are an arbitrary set that the claim passes over.
- Redis internals: stream ids are positions; how far one XAUTOCLAIM looks is
  arbitrary; an empty reply and redis.Nil are the same empty page; group creation
  (internal/stream/redis.go:65-71) is taken to have happened from position 0.
- Time: database, workers and relays share one monotone clock.
- Row ids: uuid.New is an id that is not in use. `Progress.LapsHappen`,
  `Loops.BatchesNeverStick`, `Orphans.DeliveringResolvesIffOwned` and
  `Orphans.FinishableIffNotStuck` ask that enough of the 2^128 ids are unused,
  because a failed record needs one.
- Columns updated_at and published_at, and schema values nothing writes beyond
  the outbox status `failed`.
- The classes in Repository, Processors and Consumers run one call undisturbed;
  interleaving of their transactions is the subject of Pipeline. Statements of an
  uncommitted transaction are rolled back on an error.
- Repository.EntRepository.ListDeliveryAttempts: gives commit order where the
  source sorts by created_at, the two being the same under one clock except for
  ties.
- OutboxStore.PostgresStore.ClaimDue: the order of the returned rows is open, as
  it is in the source.
- OutboxStore.Relay.PublishDue: says nothing of a row that others committed to
  while it ran beyond that the claim on it may be lost.
- Consumers.Group: a failing Redis call is taken to have had no effect; one whose
  reply was lost is a step followed by a crash in Pipeline.
- Earliness.MarkEarlyIff: is for states in which no relay holds an event of the
  notification behind another one; whether a relay can still get to such an event
  depends on all claims in between. Earliness.MarkEarlyIffLoomingOrAppended has no
  such proviso, its second condition being that some run leads to the append.
- Guarantees.DispatchBudget: a Deliver call cut off by a crash has no answer and
  is not among the answered ones; it is among the MarkDelivering calls, which
  bound it.
- Uuids.ParseUuid: follows the four text forms that uuid.Parse accepts; the source
  of that library is not part of this model.
- Consumers: a COUNT that is not positive is not sent, so that XREADGROUP reads
  everything and XAUTOCLAIM claims up to Redis's default of 100.
- Retry.DelayClosedForm: is stated for safe policies; Retry.BackoffAsDocumented
  covers the others.
- Exactly-once delivery and unconditional liveness: the code does not provide
  them; see "What is false of the code".
