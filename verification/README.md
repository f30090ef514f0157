# Payment webhooks: a model and its proofs

The system receives payment webhooks over HTTP. A request is checked and parsed, its event is
inserted into `webhook_events` under a unique provider event id, and, only if that insert was
fresh, the payment's row is read, a decision is made from its status and timestamp, and either
an anomaly is recorded (best effort) or the row is overwritten. The decision and the overwrite
are separate statements, and no transaction spans them. This project models that path down to
single SQL statements, and the migration runner that prepares the schema, and proves what
survives duplicates, reordering, failures and concurrency, and what does not.

## How the model is laid out

- **Objects.** `Repositories`, `Service`, `Handler` and `Migrations` hold the repositories, services,
  counters, HTTP handler and migration runner as classes and methods that change state where
  the program does. Each method's contract ties the new tables, counters and result to a
  function of the old ones.
- **Functions.** `Processing.Deliver` is one delivery on the tables. `Ledgers.Post` is the same without
  surrogate ids; `Ledgers.DeliverRefinesPost` shows that ids never decide anything, and the
  theorems about serial runs (`SerialRuns`, `DeliveryOrder`, `RaceWorkload`) are about `Post`.
  `RequestLaws` says what one request is answered, stores and counts in terms of its event, the tables it
  finds and its replies alone.
- **Schedules.** In `Interleavings` each request is a thread whose steps are its single statements
  (insert, get, record, upsert, respond); a schedule is any sequence of steps. The invariants of
  `Integrity`, `AtMostOnce` and `CounterLaws` hold in every state of every schedule;
  `Serializability`, `CompleteOrder`, `Overlap` and `Convergence` relate schedules to serial runs.
  `StoredPayloads` follows the stored bodies. `ConcurrentMigrations` does the same for any number of
  migration runners.
- **Replies.** A statement is `Acked` (it took effect and the caller knows), `Rejected` (no effect, the
  caller gets an error) or `AckLost` (it took effect, the caller gets an error all the same). Every
  statement of every request may get any of the three; sequence values may be skipped.

## Main results

1. **Deduplication.** Any serial run, with any failures and repetitions, equals the run of its
   effective deliveries; without failures those are the first deliveries of each provider event id.
   A stored event's later deliveries change nothing. Hence a failure after the insert can lose an update
   for good: nothing is lost if and only if every delivery that stops between its insert and the
   row is one that would have left the row alone.
2. **Order.** All failure-free orders of a batch for a new payment end in the same row if and only if
   every other event has a direct edge to the latest one; the general form covers equal
   timestamps and any rounding of timestamps on store. A delivery changes a payment's row exactly
   when it is the next step of an in-order path; everything else is noise. The rows a payment
   has are exactly the greedy chain of its effective deliveries.
3. **Concurrency.** Call a schedule validated if every upsert that takes effect finds a row it may
   replace, or its own row: the guard of a conditional upsert. A schedule's payments follow the
   serial run throughout if and only if it is validated, and if and only if rows only ever move
   along edges of the graph to later timestamps. A finished validated schedule is a serial run of
   all its parsed requests, with the same tables and answers. Schedules in which no two
   handlers hold a pending upsert for one payment are validated; a concrete schedule that is not
   loses an update with no statement failing. In validated schedules without failures, handlers
   of a batch whose events all have an edge to the latest one agree on its row.
4. **Every schedule.** An event's update is invoked at most once, and exactly once if and only if the insert
   that stores the event is acknowledged; anomalies quote rows that were really there; no
   foreign key ever refuses one; the counters balance; the anomaly recorder influences no
   payment and no response.
5. **Race workload.** The load test's generator, run for k cycles over S payments, has exactly the
   outcomes computed in closed form.
6. **Migrations.** After any number of failing or concurrent runs, the recorded versions are a
   prefix of the list, each with its effect committed once. A run succeeds exactly when no
   statement it needs fails, and a run that stops leaves exactly the prefix it got to.
7. **One request, exactly.** Each answer, each stored column and each counter has its exact condition.

## Where the documentation and the code differ

The code is followed. The service's own top-level README (lines 37-40) lists four sample event types; `internal/webhook/event.go:13-22` has ten.
`loadtest/README.md:135-137` names anomaly types `older_event_timestamp`, `pending_after_paid`,
`paid_after_failed` and `failed_after_paid`, and speaks of paid payments regressing to pending; the
code has two anomaly types and ignores such events. Whether a regression can happen at all
is what `SerialRuns.PhasesNeverGoBack` (never, serially) and `Overlap.OverlapLosesUpdate` (yes, when two
writes overlap) answer.

## Properties that hold only in part

- An event's update is invoked exactly once if and only if the insert that stores it is acknowledged
  (`AtMostOnce.PassedExactly`); if that reply is lost, no re-delivery will ever invoke it
  (`AtMostOnce.LostInsertIsNeverUpdated`).
- An update that is invoked may still not happen: if the read or the upsert fails after the insert, the provider
  is told of an error, but its retry is answered "duplicate" and the payment never changes
  (`SerialRuns.FailureAfterInsertLosesEvent`). `SerialRuns.NothingLostExactly` says exactly when no failure matters.
- Schedules follow a serial run, and timestamps and phases do not go back, exactly when they are validated
  (`Serializability.SerializableExactly`, `Serializability.HistoriesArePathsExactly`); with overlapping writes they need not
  be (`Overlap.OverlapLosesUpdate`).
- If provider timestamps are finer than the stored column, the order of a batch can matter although every
  event has an edge to the latest one (`StoredResolution.TruncationCanReorder`). It does not matter exactly when
  one event beats all others next to their stored rows (`StoredResolution.OrdersAgreeExactly`).
- Requests keep their real-time order in the serial run, except for duplicates that are answered before
  their original takes effect (`CompleteOrder.RealTimeIsRespected`). Such answers are given exactly while a handler
  with that event still waits (`CompleteOrder.DuplicateBeforeOriginal`), and they do occur (`CompleteOrder.EarlyDuplicateHappens`).
- A successful migration run commits every entry of the list once if and only if no version is
  used twice (`Migrations.AllCommittedIffDistinct`).

## Model

| member | source | states |
|---|---|---|
| Webhook.ParseEvent | internal/webhook/event.go:67-111 | a parsed event has nonempty trimmed ids, the status its type names, and the raw bytes it came from |
| Webhook.ParsesExactly | internal/webhook/event.go:67-111 | parsing yields an event if and only if its fields, padded with white space in any way, are the payload's, its type names its status and its timestamp reads as its instant |
| Webhook.FailsExactly | internal/webhook/event.go:67-111 | which error is reported: that of the first field, in the parser's order, that is blank, unknown or unreadable |
| Webhook.EventTypesNameStatuses | internal/webhook/event.go:113-138 | event types and statuses correspond one to one |
| Webhook.TrimSpaceTrims | internal/webhook/event.go:73 | trimming cuts white space off both ends and nothing else |
| Webhook.TrimSpaceIs | internal/webhook/event.go:73 | what trimming leaves is the unique trimmed core, whatever the padding |
| Webhook.ParsePadded | internal/webhook/event.go:67-111 | padding any of the four fields gives the same error or the same event but for its raw bytes |
| Webhook.SpaceByCodePoint | internal/webhook/event.go:73 | the code points that trimming removes |
| Webhook.PlainPaddingIsDropped | internal/webhook/event.go:67-111 | blanks, tabs and line breaks around plain fields are dropped, and the cores make the event |
| Tables.DuplicateIsTold | internal/repository/webhook_events.go:50-67 | an insert is a duplicate exactly when it is answered and the id is taken; exactly one code and constraint stand for it; a new id lies beyond all earlier ones |
| Tables.RecordedExactly | internal/repository/anomalies.go:53-70 | exactly which anomalies are recorded, and that event id 0 becomes null |
| Handler.PaddedRedeliveryIsDuplicate | internal/http/webhook_handler.go:40-112 | a padded re-delivery of a stored event is answered "duplicate" and changes no event, payment or anomaly |
| Repositories.WebhookEventRepository.Insert | internal/repository/webhook_events.go:28-59 | atomic insert under the unique key; only a violation of that key is reported as a duplicate; lost replies and id gaps included |
| Repositories.PaymentRepository.GetByPaymentID | internal/repository/payments.go:31-48 | the stored row, "not found" exactly when an answered query finds none, an error otherwise |
| Repositories.PaymentRepository.Upsert | internal/repository/payments.go:50-66 | overwrites the row of that key and no other, whatever was there |
| Repositories.AnomalyRepository.Record | internal/repository/anomalies.go:45-62 | appends one row unless the statement fails or a foreign key does not hold |
| Service.DetectAnomalies | internal/service/anomaly.go:14-47 | at most one anomaly; none exactly for accepted or equal-timestamp events; stale if and only if older, invalid if and only if newer along no edge |
| Service.PaymentProcessor.Process | internal/service/payment_processor.go:48-94 | tables, outcome and counters after one update, for every combination of replies |
| Service.PaymentProcessor.RecordAnomalies | internal/service/payment_processor.go:101-110 | records all anomalies and drops errors; with no recorder, nothing is sent or counted |
| Service.IdempotencyService.Process | internal/service/idempotency.go:49-65 | inserts first and updates the payment only after a fresh insert |
| Handler.Receive | internal/http/webhook_handler.go:52-87 | only well-formed events get past the checks on a request |
| Handler.TurnedAway | internal/http/webhook_handler.go:52-112 | exactly which requests get 405, 401 and 400, that nothing of them reaches the database, which counters they move, and what the others can be answered |
| RequestLaws.AnswersExactly | internal/http/webhook_handler.go:94-111 | for a parsed request, exactly when the answer is 200 "duplicate", 500 "internal_error" or 200 "processed" |
| RequestLaws.StoresExactly | internal/repository/webhook_events.go:32-49 | for a parsed request, every stored column, the payment's row and the anomaly, in each reply case |
| RequestLaws.CleanRequestIsApplied | internal/http/webhook_handler.go:79-111 | a new, acceptable event without failures is answered "processed", stored with the received body, and becomes the payment's row |
| RequestLaws.CountsAnswers | internal/http/webhook_handler.go:87-109 | what the request, duplicate and response counters rise by |
| RequestLaws.CountsOutcomes | internal/service/payment_processor.go:48-94 | what created, updated, ignored, failed, the ignore reasons and the anomaly counters rise by |
| RequestLaws.CreatedCountsRows | internal/service/payment_processor.go:56-64 | over any serial run, created and the payments table grow alike exactly when no reply to a creating upsert is lost |
| StoredPayloads.StoredRowsParse | internal/repository/webhook_events.go:32-49 | in every state of every schedule each stored body parses to an event with the row's id, payment, type and timestamp |
| Handler.WebhookHandler.ServeHTTP | internal/http/webhook_handler.go:40-112 | response, tables and counters of a whole request, as the serial semantics has them |
| Ledgers.DeliverRefinesPost | internal/service/idempotency.go:49-65 | a delivery does the same to tables with surrogate ids as to tables without, with the same answer and outcome |
| Ledgers.DeliverAllRefinesPostAll | internal/service/idempotency.go:49-65 | the same for whole serial runs |
| Transitions.EdgesByTarget | internal/service/anomaly.go:49-64 | which statuses each status may replace, exactly |
| Transitions.ReachableStatuses | internal/service/anomaly.go:49-64 | exactly which statuses one or more transitions lead to |
| Transitions.PathKeepsPhaseOrder | internal/service/anomaly.go:49-64 | along any path of rows timestamps strictly grow, the phase never goes back, terminal statuses are final, and captured ones end only in refunded or chargeback |
| Transitions.PathEntersTerminals | internal/service/anomaly.go:49-64 | along a path each status is entered only from those that may precede it: chargeback only from disputed, refunded only from paid or partially refunded, the other terminals only before capture |
| SerialRuns.DedupEquivalence | internal/service/idempotency.go:49-65 | a run with any failures and repetitions equals the run of its effective deliveries, and stores exactly their ids |
| SerialRuns.FailureFreeDedup | internal/service/idempotency.go:49-65 | without failures only the first delivery of each provider event id matters |
| SerialRuns.StoredForGood | internal/service/idempotency.go:50-58 | once an event is stored, later deliveries of its id change nothing, invoke no update and are answered "duplicate" unless their own insert fails |
| SerialRuns.NothingLostExactly | internal/service/idempotency.go:49-65 | after every prefix of a run the payments are as if no stored event had met a failure, if and only if each delivery that stops between its insert and the row would have left the row alone |
| SerialRuns.FailureAfterInsertLosesEvent | internal/service/idempotency.go:50-62 | any failure between an insert that took effect and the row loses an acceptable event: error, then "duplicate" for its clean retry, and no change |
| SerialRuns.EventsOnlyGrow | internal/repository/webhook_events.go:28-59 | stored events and anomalies are never changed or lost, payments never disappear |
| SerialRuns.Projection | internal/service/payment_processor.go:48-94 | a payment's row and anomalies depend only on the effective deliveries for that payment |
| SerialRuns.SwapNeighbours | internal/service/payment_processor.go:48-94 | neighbouring deliveries of different events for different payments may be swapped anywhere in a run |
| SerialRuns.HistoryIsGreedyChain | internal/service/payment_processor.go:72-93 | the rows a payment goes through are the greedy chain of its effective deliveries, a path in the graph with growing timestamps, and the table holds its last element |
| SerialRuns.PhasesNeverGoBack | internal/service/payment_processor.go:72-86 | between any two points of any run the phase and the timestamp of a payment do not go back and a terminal row stays |
| SerialRuns.TerminalsEntered | internal/service/payment_processor.go:82-93 | a delivery moves an existing payment into a terminal status only from the statuses the graph allows |
| DeliveryOrder.OrderIndependence | internal/service/payment_processor.go:56-93 | all orders of a fresh batch end in the same row if and only if every other event has a direct edge to the latest one; that row is then the latest event |
| DeliveryOrder.OrderIndependenceWithTies | internal/service/payment_processor.go:56-93 | the same for batches with equal timestamps: if and only if every other event says the same as one of them or is older with an edge to it |
| DeliveryOrder.TwoOrdersDiffer | internal/service/payment_processor.go:56-93 | an event without that edge gives two orders with different ends |
| DeliveryOrder.LatestExists | internal/service/payment_processor.go:72-80 | every nonempty batch with distinct timestamps has a latest event |
| DeliveryOrder.InOrderPathIsFollowed | internal/service/payment_processor.go:72-86 | an allowed, time-increasing path delivered in order is accepted entirely and decides the final row, whatever re-deliveries of stored events, failed attempts and unacceptable events lie between |
| DeliveryOrder.MovesArePathWithNoise | internal/service/payment_processor.go:72-86 | conversely, the deliveries that change a payment's row are always such a path, and all others are such noise |
| Interleavings.SoloRunServes | internal/http/webhook_handler.go:40-112 | the single steps of a request, run alone, do exactly what serving it does |
| Integrity.AlwaysSound | internal/db/migrations.go:94-121 | in every state of every schedule: ids positive and unique, each payment row backed by a stored event, each anomaly truthful and the only one of its event; rows are only added and payments only overwritten |
| Integrity.EmptyIsSound | internal/db/migrations.go:94-121 | a freshly migrated database satisfies that invariant |
| Integrity.AnomalyInsertsAreNeverRefused | internal/repository/anomalies.go:45-70 | every anomaly insert carries a nonzero id of a stored event and an existing payment, so neither foreign key refuses it and no event id is null |
| Integrity.AnomaliesQuoteRealRows | internal/service/anomaly.go:14-22 | the current status and timestamp an anomaly quotes were stored for its payment at an earlier point of the schedule |
| AtMostOnce.UpdatedAtMostOnce | internal/repository/webhook_events.go:28-59 | in every schedule at most one handler per provider event id passes the insert, and at most one upsert or anomaly insert follows |
| AtMostOnce.PassedExactly | internal/service/idempotency.go:49-65 | in every schedule an event's update is invoked exactly once if and only if the insert that stores it is acknowledged, and otherwise never |
| AtMostOnce.UpdatedExactlyOnce | internal/service/idempotency.go:49-65 | if none of its inserts fails, the update of a new event was invoked exactly once when a handler of it is done, whatever else fails |
| AtMostOnce.LostInsertIsNeverUpdated | internal/service/idempotency.go:50-58 | if the insert's reply is lost, the event is stored, the answer is an error, and no later schedule ever invokes its update |
| AtMostOnce.RecorderDoesNotMatter | internal/service/payment_processor.go:101-110 | two runs of one schedule that differ in failing anomaly inserts, or in having a recorder, have the same payments, stored events and responses |
| CounterLaws.CountersConserved | internal/http/webhook_handler.go:40-112 | requests = successes + errors + requests in flight, and all other balances, in every reachable state |
| CounterLaws.CountersBalanceAtRest | internal/http/webhook_handler.go:40-112 | once all requests are answered the counters of responses, duplicates, outcomes, ignore reasons and anomalies agree exactly |
| CounterLaws.CountersTally | internal/service/payment_processor.go:48-94 | in every schedule created, updated, failed, equal-timestamp, method, payload, signature and event counters count exactly the steps they should |
| Serializability.AlwaysSerializable | internal/service/payment_processor.go:48-94 | at every point of a validated schedule tables, anomalies and answers are those of the serial run so far |
| Serializability.SerializableAtRest | internal/service/payment_processor.go:48-94 | a finished validated schedule has the events, payments and (but for failed inserts) anomalies of a serial run of the newly stored events, each once, with the same answers |
| Serializability.SerializableExactly | internal/service/payment_processor.go:56-88 | the payments follow the serial run throughout if and only if every upsert that takes effect finds a row it may replace or its own |
| Serializability.HistoriesArePathsExactly | internal/service/payment_processor.go:72-88 | rows only ever move along edges to later timestamps if and only if the same holds |
| Serializability.ValidatedPhasesNeverGoBack | internal/service/payment_processor.go:72-88 | between any two points of a validated schedule phases and timestamps do not go back and terminal rows stay |
| CompleteOrder.EveryRequestIsSerialized | internal/service/idempotency.go:49-65 | that serial run extends to one of all parsed requests, duplicates and failed inserts included: each has exactly one place, under its own event, and is answered as there |
| CompleteOrder.RealTimeIsRespected | internal/service/idempotency.go:49-65 | a request that was answered before another arrived comes before it in that order, unless it was a duplicate answered before its original took effect |
| CompleteOrder.DuplicateBeforeOriginal | internal/service/idempotency.go:50-55 | a duplicate is answered before its original takes effect exactly while some handler of that event waits to decide or write |
| CompleteOrder.EarlyDuplicateHappens | internal/service/idempotency.go:50-62 | two handlers of one new event: the second is told "duplicate" while nothing has taken effect |
| Overlap.NoOverlapIsValidated | internal/service/payment_processor.go:56-88 | if no two handlers hold a pending upsert for one payment at once, the schedule is validated |
| Overlap.OverlapLosesUpdate | internal/repository/payments.go:50-60 | with overlapping writes and no failure, a later event's row can be overwritten by an earlier event's, which no serial order does; that upsert is not validated |
| Convergence.FailureFreeOrder | internal/service/payment_processor.go:48-94 | a schedule without failures has a serial order without failures |
| Convergence.HandlersConverge | internal/service/payment_processor.go:48-94 | in a validated schedule without failures, the new events of a payment, concurrent and re-delivered at will, leave the row of the event that follows all others |
| RaceWorkload.RaceWorkloadOutcome | loadtest/payment_webhooks.js:455-478 | k cycles over S payments have exactly S created, S(k-1) equal, 3Sk stale and Sk disallowed outcomes, and no other |
| RaceWorkload.AllPaid | loadtest/payment_webhooks.js:455-478 | after k cycles, k at least 1, payment i is paid at 2026-06-19T00:03:00Z plus i seconds |
| RaceWorkload.InstantsWrittenOut | loadtest/payment_webhooks.js:455-478 | the instant and status of each generated event as plain numbers |
| RaceWorkload.AllProcessed | loadtest/payment_webhooks.js:455-478 | no delivery of the workload is answered as a duplicate or an error |
| RaceWorkload.EventsWellFormed | loadtest/payment_webhooks.js:472-478 | every generated event type is one the parser knows, with the status assumed |
| RaceWorkload.GeneratedEventsParse | loadtest/payment_webhooks.js:455-470 | a body that spells out a generated event is parsed as exactly that event |
| RaceWorkload.ProviderEventIDsDiffer | loadtest/payment_webhooks.js:461 | generated provider event ids determine the iteration, so none repeats |
| RaceWorkload.DeliveryOutcome | loadtest/payment_webhooks.js:455-470 | the outcome of each single delivery from its place in the cycle |
| StoredResolution.NeverGoesBack | internal/repository/payments.go:50-60 | with timestamps truncated on store, rows still never go back and terminals stay |
| StoredResolution.OrdersAgreeExactly | internal/service/payment_processor.go:56-93 | for any rounding on store, all orders of a batch end in the same row if and only if one event beats every other; that row is then its own |
| StoredResolution.TruncationAndOrder | internal/service/payment_processor.go:72-80 | two events end in the same row in either order exactly when they leave the same row or just one of them may come second |
| StoredResolution.TruncationCanReorder | internal/service/payment_processor.go:72-80 | a concrete pair of events for which it does |
| StoredResolution.ExactTimestamps | internal/repository/payments.go:50-60 | with timestamps the column holds exactly, truncation changes nothing |
| Migrations.RunMigrations | internal/db/migrations.go:23-49 | the committed schema and result of one run, for every combination of replies |
| Migrations.ApplyInTx | internal/db/migrations.go:64-91 | nothing of a migration stays unless its commit takes effect |
| Migrations.MigrationApplied | internal/db/migrations.go:51-62 | whether the version is recorded, or an error |
| Migrations.RunKeepsPrefix | internal/db/migrations.go:23-91 | a run, wherever it fails, leaves a recorded prefix no shorter than before; a successful one the whole list |
| Migrations.SucceedsExactly | internal/db/migrations.go:23-91 | a run succeeds exactly when the version table is ensured, every check is answered, and every entry not recorded by then is applied without failure |
| Migrations.StopsExactly | internal/db/migrations.go:33-91 | a run that stops at an entry leaves exactly the prefix before it, including it if only its commit's reply was lost |
| Migrations.CleanRunCommitsAll | internal/db/migrations.go:23-91 | from an empty database, with every statement acknowledged and distinct versions, a run succeeds and commits the whole list |
| Migrations.RepeatedRunsKeepPrefix | internal/db/migrations.go:23-91 | any number of failing runs from an empty database leave a prefix of the list with its effects once each |
| Migrations.CompleteIsStable | internal/db/migrations.go:33-41 | once the list is recorded, further runs change nothing and succeed if their checks are answered |
| Migrations.EffectsAreDistinct | internal/db/migrations.go:24-29 | after any number of failing runs no two committed effects share a version, and they are exactly the recorded versions |
| Migrations.AllCommittedIffDistinct | internal/db/migrations.go:33-46 | once a run succeeds, whatever failed before, the committed effects are the whole list if and only if no version is used twice |
| ConcurrentMigrations.AlwaysAPrefix | internal/db/migrations.go:51-91 | however runners interleave and fail, the committed schema is a prefix of the list that never gets shorter |
| ConcurrentMigrations.CommittedAtMostOnce | internal/db/migrations.go:51-91 | no two committed effects share a version, and a runner that reports success leaves the whole list recorded |
| ConcurrentMigrations.StopsForCause | internal/db/migrations.go:51-91 | a runner gives up only if its own statement fails or its version has been committed meanwhile; while another holds the version it waits |
| ConcurrentMigrations.SoloRunMigrates | internal/db/migrations.go:23-91 | a runner scheduled alone ends with exactly the schema and result of a run |

## Left out

- HTTP server, router, request ids, JSON encoding, logging fields, shutdown: input and output around the modelled path.
- The HMAC check, JSON decoding and RFC 3339 reading (section 5.6 of RFC 3339) are parameters: library calls.
- `paymentStatusFromPayload` and `populateLogFieldsFromPayload` (`internal/http/webhook_handler.go:154-201`): they only fill log fields.
- The empty-status fallback (`internal/http/webhook_handler.go:104-106`): the service never returns an empty status.
- Metric labels, timers and histograms: counters are summed over event types. The source accepts absent metrics; here they are always present.
- Configuration and database connection set-up; the `created_at`, `updated_at` and `applied_at` columns and the anomaly ids: nothing modelled reads them.
- Postgres itself: each statement is atomic with one of three replies, keys are enforced, and an id sequence never runs out (the 64-bit limit is not modelled).
- The local code between two statements runs together with the statement before it, so a counter moves in the same step: each counter is only ever added to, and no local code reads one.
- The reply to the anomaly insert is one per request, since an update detects at most one anomaly.
- A retry by the provider is a further request; how often providers retry is not modelled.
- Provider timestamps are instants at the column's resolution except in `StoredResolution`, which follows one payment's failure-free deliveries only.
- Postgres's own error when two runners create the version table at the same moment reads as a rejected statement.
- The rest of the load test script: request sending, thresholds and stages.
- Overlap.NoOverlapIsValidated: the condition is sufficient only; the exact one is `Serializability.SerializableExactly`. A schedule that departs from the serial run in between may still end in the same payments by chance; that is not characterised.
- CompleteOrder.RealTimeIsRespected: early duplicates come last in the order and are excepted; where else they could stand is not studied.
- Convergence.HandlersConverge: one direction only; that some order ends otherwise when no event follows all others is shown for serial runs (`DeliveryOrder.OrderIndependenceWithTies`).
- Webhook.ParseEvent: its own contract leaves the instant, the type and the choice of error to `Webhook.ParsesExactly` and `Webhook.FailsExactly`.
- Handler.Receive: its own contract leaves which requests are turned away to `Handler.TurnedAway`, and what is done with the event to `RequestLaws`.
