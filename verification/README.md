# Verified model of the order management service

The service keeps orders in a store with optimistic locking and drives them with a
saga: `Start` reserves, pays and confirms, `Cancel` and `Refund` compensate. Around the
saga sit idempotent request handling, a leased outbox with a publishing worker, a
dead-letter queue with a replay tool, a Kafka consumer, a courier registry and a schema
migrator. This project models the in-memory behaviour of those parts and proves what
holds over whole runs of them.

| file | part of the system |
|---|---|
| `Orders.dfy` | orders and the compare-and-set store |
| `SagaProtocol.dfy` | the saga as a step machine: any number of calls, every read, service call, save, reload and event one atomic step |
| `SagaSafety.dfy`, `SagaAccounting.dfy` | what holds on every interleaving, how saves and events add up |
| `SagaTrace.dfy`, `SagaStages.dfy`, `SagaLedger.dfy`, `SagaStock.dfy`, `SagaOutcomes.dfy` | notes an observer takes of a run, when statuses move forward, where the money is, where the reservation is, what is asked for and announced |
| `SagaOverlap.dfy`, `SagaCompensation.dfy` | what overlapping calls can break, and exactly when they do |
| `SagaOrchestrator.dfy` | the orchestrator as a class, for calls that do not overlap; ghost worlds tie every call to a run of the step machine |
| `IdempotencyStore.dfy`, `IdempotencyWrapper.dfy`, `IdempotencyProtocol.dfy` | records and batched cleanup, one request, interleaved requests on one key |
| `OutboxStore.dfy`, `OutboxWorker.dfy`, `OutboxProtocol.dfy` | the outbox, its worker, any number of passes over one message |
| `DeadLetter.dfy`, `Replay.dfy`, `Consumer.dfy` | dead-letter formats and their reader, the replay tool, the consumer's retries and marks |
| `CourierDomain.dfy`, `CourierZones.dfy`, `CourierSlots.dfy`, `CourierRatings.dfy`, `CourierRegistry.dfy` | courier rules and the registry of five maps |
| `MigrationNames.dfy`, `MigrationLoader.dfy`, `Migrator.dfy`, `MigratorRuns.dfy` | naming and loading migration files, applying them, sequences of up and down calls |
| `Text.dfy`, `Common.dfy` | trimming and string order, what several parts share |

Whatever the environment decides (answers of services, the clock, which thread moves
next, which transaction commits, cancellations, the order in which a map is walked) is a
parameter, an action of the run, or an arbitrary choice, so the results hold for all of
it. Time is an integer number of nanoseconds with 0 for the zero time. A clock never
reads the zero time where a stored stamp depends on it (`SubmitRating`,
`WithIdempotency`). Request hashes are collision free. Messages enter the outbox with
distinct ids. The group session commits past the highest marked offset of a partition.
A partition consumer delivers nothing from before the offset it was opened at
(`PartIsWithin`).

Properties that do not hold for the code are kept as results: a reachable counterexample
and the exact condition under which the property does hold.

- "A canceled order that was paid has been refunded" fails even for calls that do not
  overlap, because Cancel takes any answer without error for a refund, whatever status
  it reports (`UnreportedRefundKeepsMoney`); `BetweenCalls` says that for such calls the
  refund was always asked for and returned without error, and that the money came back
  exactly when it was reported refunded. Overlapping calls add more ways: a Cancel that
  read the order pending overwrites a newer status (`OverlappingCancelKeepsMoney`), a
  Cancel commits at its first attempt while a payment is in flight
  (`PaymentInFlightIsKept`), a Start whose payment is declined cancels an order another
  Start has paid (`FailingStartKeepsMoney`). `CanceledIsRepaidWhen` says for every commit
  of canceled exactly when the refund was reported, from what was stored, what the calls
  first read, how their refunds were answered and which payments are not stored yet;
  `RepaidWhen` says it for every state.
- "A canceled order that was reserved has had a release asked for" holds for calls that
  do not overlap (`BetweenCalls`) and fails when a Cancel commits while a reservation is
  in flight (`ReservationInFlightIsKept`) or overwrites a newer status
  (`OverlappingCancelKeepsMoney`). `CanceledIsReleasedWhen` and `ReleasedWhen` say
  exactly when it holds.
- "Pay at most once" fails (`OverlappingStartsPayTwice`), even when no save was ever
  rejected (`PaidTwiceWithoutConflict`). `PaymentsAreCounted` says exactly how many
  payments there are and when there is at most one.
- "Status only moves forward" fails (`OverlappingStartsPayTwice`); `HistoryGoesForward`
  says exactly when it holds.
- An outcome cached after its record's day has passed can answer another request
  (`LateOutcomeAnswersAnother`); `OutcomeLandsHome` says exactly when it lands home, and
  that it does before that day is over.
- The consumer's comment says an unmarked message is in the dead-letter queue or will be
  processed again; it is lost when a later message of the partition is settled
  (`FailedMessageIsLost`, `LostWhenOvertaken`).
- Saving a profile can take the car from a courier with several zones or a night slot
  (`TradeTheCar`, `SaveKeepsVehicleRules`).
- Up n and then down n does not always restore the applied migrations
  (`UpThenDownLosesOne`); `UpThenDown` says exactly when it does.

## Model

| member | source | states |
|---|---|---|
| `Orders.OrderRepository.Create` | internal/storage/memory/order_repository.go:24-35 | an existing id is a conflict and changes nothing; a new one is stored as given |
| `Orders.OrderRepository.Get` | internal/storage/memory/order_repository.go:37-47 | the stored order, or not found |
| `Orders.OrderRepository.Save` | internal/storage/memory/order_repository.go:76-91 | writes exactly when the caller holds the stored version, raising it by one; otherwise nothing changes |
| `SagaSafety.RunSafe` | internal/service/saga/orchestrator.go:108-459 | the safety invariant survives every sequence of steps of any number of calls |
| `SagaSafety.StoredOrderEvolution` | internal/service/saga/orchestrator.go:393-459 | on every interleaving contents never change, each save raises the version by one, and a canceled or refunded order keeps its status for ever |
| `SagaSafety.StoredStatusIsEarned` | internal/service/saga/orchestrator.go:135-196 | a stored reserved, paid, confirmed or refunded order is backed by a successful reserve, then a payment of exactly its amount, then a refund of at most its amount, in that order |
| `SagaSafety.CopiesAreStoredValues` | internal/service/saga/orchestrator.go:393-459 | outside the save window a call's copy at version v is what was stored at version v |
| `SagaSafety.SaveKeepsHistory` | internal/service/saga/orchestrator.go:393-459 | one pass of the update loop keeps versions consecutive, contents fixed and terminal statuses final |
| `SagaSafety.TerminalStays` | internal/service/saga/orchestrator.go:402-410 | in a history with that shape every value after a terminal one has its status |
| `SagaAccounting.SavesPerUpdate` | internal/service/saga/orchestrator.go:393-459 | each updateStatus call tries at most three saves and commits at most one |
| `SagaAccounting.ThirdRejectionIsFinal` | internal/service/saga/orchestrator.go:393-459 | on every interleaving a save turned away by a newer version is retried, unless it was the third |
| `SagaAccounting.VersionCountsEvents` | internal/service/saga/orchestrator.go:461-501 | an order's version is the number of its status events plus the calls that saved and have not emitted yet |
| `SagaAccounting.EveryVersionAnnouncedOnce` | internal/service/saga/orchestrator.go:461-501 | once nobody is about to emit, every stored version has exactly one event, with its status |
| `SagaStages.FirstSaveGoesForward` | internal/service/saga/orchestrator.go:393-432 | on every interleaving a save that commits at its first attempt changes the status along an intended edge |
| `SagaStages.HistoryGoesForward` | internal/service/saga/orchestrator.go:400-453 | on every interleaving each commit is recorded with its target, attempt and the status it replaced; the history goes forward exactly when every commit after a rejection found a status its target may follow, which reserved never does and canceled fails only over canceled |
| `SagaLedger.EachCallPaysOnce` | internal/service/saga/orchestrator.go:172-196 | on every interleaving each call asks for at most one payment |
| `SagaLedger.PaymentsAreCounted` | internal/service/saga/orchestrator.go:108-196 | payments asked for or due equal Starts that read reserved plus times reserved was stored; at most one exactly when no Start read reserved and it was stored at most once; never more than Starts that read the order new or reserved |
| `SagaLedger.TookIsPaid` | internal/service/saga/orchestrator.go:172-196 | a payment went through exactly when paid was stored, or a Start stands before the save of it or gave it up |
| `SagaLedger.BackIsRepaid` | internal/service/saga/orchestrator.go:245-336 | a full refund was reported refunded exactly when more calls that refund in full read the order paid than still owe the refund, were refused or were answered without error under another status |
| `SagaLedger.RepaidWhen` | internal/service/saga/orchestrator.go:108-360 | in every state a paid order has had a full refund reported refunded to somebody exactly when it was never paid or a call that read it paid had its refund so reported |
| `SagaStock.HeldIsReserved` | internal/service/saga/orchestrator.go:155-170 | a reservation went through exactly when reserved was stored, or a Start stands before the save of it or gave it up |
| `SagaStock.LetGoIsReleased` | internal/service/saga/orchestrator.go:172-336 | a release was asked for exactly when Cancels that read the order reserved or paid, payments that did not go through and reported Refunds outnumber the calls that still owe one |
| `SagaStock.ReleasedWhen` | internal/service/saga/orchestrator.go:108-360 | in every state an order that was reserved has had a release asked for by somebody exactly when it was never reserved or such a call is past its release |
| `SagaOutcomes.CallsAreAsAsked` | internal/service/saga/orchestrator.go:299-336 | on every interleaving every payment is of the order's amount and every refund by a call that first read the order paid: the whole amount for a Cancel, what a Refund asked for if it lies in 1..amount and the whole amount otherwise |
| `SagaOutcomes.OutcomesAreCounted` | internal/service/saga/orchestrator.go:362-383 | on every interleaving the closing events of each kind, announced or about to be, are as many as the commits that call for them: failures for Starts that stored canceled, cancellations for Cancels, refunds with their amount for Refunds |
| `SagaCompensation.CanceledIsRepaidWhen` | internal/service/saga/orchestrator.go:172-282 | every commit of canceled is a Cancel's or a failing Start's; a Cancel that first read the order paid had its refund answered without error and leaves the order refunded exactly when that answer, or another call's, was reported refunded; any other commit does exactly when paid was never stored and no Start holds or gave up an unstored payment, or when a call that read it paid had its refund reported |
| `SagaCompensation.CanceledIsReleasedWhen` | internal/service/saga/orchestrator.go:172-282 | a commit of canceled by a Cancel that first read the order reserved or paid follows a release; any other follows one, if the order was reserved, exactly under the condition of `ReleasedWhen` |
| `SagaCompensation.UnreportedRefundKeepsMoney` | internal/service/saga/orchestrator.go:249-258 | for every new order a Cancel after a finished Start reaches a canceled and paid order without a reported refund, every call finished |
| `SagaCompensation.ReservationInFlightIsKept` | internal/service/saga/orchestrator.go:155-170 | for every new order a reachable state has every call finished, the order canceled and reserved, and no release asked for, after a Cancel that was never rejected |
| `SagaCompensation.PaymentInFlightIsKept` | internal/service/saga/orchestrator.go:172-282 | for every new order a reachable state has every call finished, the order canceled and paid, and no refund asked for, after a Cancel that was never rejected |
| `SagaCompensation.FailingStartKeepsMoney` | internal/service/saga/orchestrator.go:172-196 | for every new order two Starts alone reach a canceled, paid and unrefunded order, moving forward only, and both finish there |
| `SagaCompensation.PaidTwiceWithoutConflict` | internal/service/saga/orchestrator.go:108-196 | for every new order two payments go through in a run without a rejected save |
| `SagaOverlap.CancelCompensates` | internal/service/saga/orchestrator.go:223-282 | a Cancel that commits has itself made the compensations the status it replaces calls for exactly when the status it first read owed at least as much, and always when its first save commits |
| `SagaOverlap.OverlappingCancelKeepsMoney` | internal/service/saga/orchestrator.go:223-282 | for every new order a reachable state has it canceled and paid with neither refund nor release |
| `SagaOverlap.OverlappingStartsPayTwice` | internal/service/saga/orchestrator.go:108-153 | for every new order a reachable run moves it from paid back to reserved and pays twice |
| `SagaOrchestrator.Orchestrator.CreateOrder` | internal/service/grpc/order_service.go:95-170 | a new order enters the store pending at version 0 and the ledger starts empty |
| `SagaOrchestrator.Orchestrator.Pass` | internal/service/saga/orchestrator.go:393-459 | one pass of the loop: stop at a terminal status, commit over the held version, or reload and retry, as one or two machine steps |
| `SagaOrchestrator.Orchestrator.UpdateStatus` | internal/service/saga/orchestrator.go:393-459 | the loop's outcome as a function of the copy, the stored order and the target, reached by steps of the machine |
| `SagaOrchestrator.Orchestrator.Conclude` | internal/service/saga/orchestrator.go:362-383 | the status change and the two events that close a failed or canceled order |
| `SagaOrchestrator.Orchestrator.HandleReserve` | internal/service/saga/orchestrator.go:155-170 | reserved, or canceled when the reservation fails, with exactly one reserve call, announced by the status event and, on failure, the saga-failed event |
| `SagaOrchestrator.Orchestrator.HandlePayment` | internal/service/saga/orchestrator.go:172-196 | paid after one payment of the order's amount and currency that was captured or authorized; otherwise released and canceled, with the saga-failed event |
| `SagaOrchestrator.Orchestrator.HandleConfirm` | internal/service/saga/orchestrator.go:198-221 | confirmed without any service call |
| `SagaOrchestrator.Orchestrator.Stages` | internal/service/saga/orchestrator.go:108-153 | which calls are made from each status and which status their answers lead to; confirmed and terminal orders are left alone and the money stays balanced |
| `SagaOrchestrator.Orchestrator.Start` | internal/service/saga/orchestrator.go:108-153 | the same for the stored order: confirmed exactly when every call it owed went through, canceled otherwise, with exactly those calls; all other orders and ledgers are unchanged |
| `SagaOrchestrator.Orchestrator.Compensate` | internal/service/saga/orchestrator.go:245-258 | the release and refund owed for the status read; only a refused refund stops it |
| `SagaOrchestrator.Orchestrator.Cancel` | internal/service/saga/orchestrator.go:223-282 | exactly the release and refund owed for the status read; canceled, with both events, unless that refund returns an error, and then the order is unchanged |
| `SagaOrchestrator.Orchestrator.PayBack` | internal/service/saga/orchestrator.go:299-336 | exactly one refund call of the given amount, followed by exactly one release call when it is reported refunded and by nothing otherwise; only then does it count as returned |
| `SagaOrchestrator.Orchestrator.Refund` | internal/service/saga/orchestrator.go:284-360 | only paid or confirmed orders are refunded: one refund of the amount asked for if it lies in 1..amount and of the whole amount otherwise; reported refunded, it is followed by a release, status refunded and an event with that amount; otherwise no order changes |
| `SagaOrchestrator.Orchestrator.BetweenCalls` | internal/service/saga/orchestrator.go:108-360 | between calls: at most one Pay, net money between 0 and the amount, a canceled order that was paid had a release and a full refund that returned without error, and its money came back exactly when that refund was reported refunded, a canceled order that was reserved had a release, every status earned, version equal to the number of status events |
| `IdempotencyStore.Repository.CreateProcessing` | internal/storage/memory/idempotency_repository.go:23-62 | a free key is claimed by a processing record with all its fields, for 24 hours unless told otherwise; a taken one is reported with its record, or as a mismatch, and nothing changes |
| `IdempotencyStore.Repository.MarkStatus` | internal/storage/memory/idempotency_repository.go:113-134 | overwrites status, body and code of the record under the key and nothing else |
| `IdempotencyStore.Repository.DeleteExpired` | internal/storage/memory/idempotency_repository.go:89-111 | in any walk order removes only records whose time to live is not after the cutoff, the limit of them or all |
| `IdempotencyStore.CleanupWorker.DeleteExpired` | internal/service/idempotency/cleanup_worker.go:145-172 | terminates for every positive batch size; unless canceled it removes exactly the expired records and returns their number |
| `IdempotencyWrapper.ReplayRepeatsFirstAnswer` | internal/service/grpc/order_service.go:504-560 | a cached outcome is replayed unchanged exactly for responses and for errors with a code in 1..16 and a message |
| `IdempotencyWrapper.ReplayedIs` | internal/service/grpc/order_service.go:504-560 | what a repeat hears: the response, or the error with a code outside 1..16 turned into 13 and a missing message into the fixed one |
| `IdempotencyWrapper.FailureIsRead` | internal/service/grpc/order_service.go:537-560 | any stored failure is replayed with the code of its body, else the stored code, else 13, and with a message |
| `IdempotencyWrapper.FrameInjective` | internal/service/grpc/order_service.go:670-686 | requests are framed injectively for method names without a colon |
| `IdempotencyWrapper.WithIdempotency` | internal/service/grpc/order_service.go:418-502 | the handler runs exactly when the key is free, its caller hears what it said and a repeat hears the same as far as caching keeps it; otherwise nothing changes and the caller gets code 6 under another hash, code 10 while it is processing, or the replay |
| `IdempotencyProtocol.HandlerRunsBounded` | internal/service/grpc/order_service.go:418-460 | on every interleaving handler runs, finished or under way, equal deletions plus one while a record lives |
| `IdempotencyProtocol.RepeatGetsFirstOutcome` | internal/service/grpc/order_service.go:468-502 | on every interleaving a request that finds a live record is answered at once and for good and changes nothing: refused under another hash, Aborted while the first one runs, then the outcome of the handler that ran for the record |
| `IdempotencyProtocol.OutcomeIsStable` | internal/storage/memory/idempotency_repository.go:113-134 | a finished record changes only by deletion |
| `IdempotencyProtocol.OutcomeLandsHome` | internal/service/grpc/order_service.go:443-458 | the record a request claimed still stands exactly when no cleanup that came to it since reached its time to live, and always before that time |
| `IdempotencyProtocol.HomeForADay` | internal/service/grpc/order_service.go:408-411 | whatever runs in between, for 24 hours after a request arrived the record it claimed stands |
| `IdempotencyProtocol.WinnerHearsItself` | internal/service/grpc/order_service.go:443-460 | the request whose handler ran is answered with its outcome, cached or not, for good |
| `IdempotencyProtocol.PromptIsHome` | internal/service/grpc/order_service.go:408-411 | when every outcome is cached within the day its request asked for, every outcome lands on its own record, whatever cleanup does |
| `IdempotencyProtocol.LateOutcomeIsUnfaithful` | internal/service/grpc/order_service.go:504-535 | an outcome that lands elsewhere leaves a record that answers for the wrong handler |
| `IdempotencyProtocol.LateOutcomeAnswersAnother` | internal/service/grpc/order_service.go:504-535 | a run in which a handler outlasts the day of its record and a different request is answered with its response |
| `OutboxStore.OutboxRepository.Enqueue` | internal/storage/memory/outbox_repository.go:36-52 | the message is stored pending under its own or a fresh id |
| `OutboxStore.OutboxRepository.PullPending` | internal/storage/memory/outbox_repository.go:56-94 | claims the first claimable records by creation time and id, in that order, and changes no other record; `PulledExactlyWhen` says over runs which those are |
| `OutboxStore.BatchUnique` | internal/storage/memory/outbox_repository.go:56-94 | filter, sort and take describe one batch only, so the walk order of the map is irrelevant |
| `OutboxStore.OutboxRepository.MarkSent` | internal/storage/memory/outbox_repository.go:116-129 | marks exactly the named record sent |
| `OutboxStore.OutboxRepository.MarkFailed` | internal/storage/memory/outbox_repository.go:131-144 | marks exactly the named record failed |
| `OutboxStore.OutboxRepository.Stats` | internal/storage/memory/outbox_repository.go:97-114 | the number of pending and processing records and the earliest creation time among them |
| `OutboxStore.PullsAreALeaseApart` | internal/storage/memory/outbox_repository.go:56-94 | in every run two pulls that return one message are at least two minutes apart |
| `OutboxStore.PulledExactlyWhen` | internal/storage/memory/outbox_repository.go:56-94 | in every run a pull with room left returns a message exactly when the last operation on it was its enqueueing, or a pull at least two minutes before |
| `OutboxStore.PulledOldestFirst` | internal/storage/memory/outbox_repository.go:56-94 | in every run a pull takes messages by the time they were enqueued, then by id |
| `OutboxStore.MessagesAreConserved` | internal/storage/memory/outbox_repository.go:97-143 | in every run enqueued messages equal backlog plus sent plus failed |
| `OutboxWorker.RetryBackoff` | internal/service/outbox/worker.go:266-283 | min(base * 2^(attempt-1), 2^63-1), and no intermediate product leaves 64 bits |
| `OutboxWorker.Worker.PublishWithRetry` | internal/service/outbox/worker.go:215-244 | succeeds exactly when some attempt within the limit does before a canceled wait; its effects follow the pass automaton |
| `OutboxWorker.Worker.Deliver` | internal/service/outbox/worker.go:184-212 | a message is marked sent or, after the dead-letter path, failed, and no other record changes |
| `OutboxWorker.Worker.DeliverAll` | internal/service/outbox/worker.go:178-213 | messages are settled in order until the context is canceled; the rest stay claimed |
| `OutboxWorker.Worker.ProcessOnce` | internal/service/outbox/worker.go:169-213 | one round settles a prefix of the claimed batch and touches nothing outside it; a context canceled beforehand claims nothing |
| `OutboxProtocol.MarksAreEarned` | internal/service/outbox/worker.go:169-244 | with any number of workers, each with its own limit, sent implies a successful publish; failed implies a pass that used up its attempts or was canceled in a wait and then entered the dead-letter path |
| `OutboxProtocol.RunIsStored` | internal/storage/memory/outbox_repository.go:56-143 | every run of the workers over a message is a run of the store: claims are pulls, marks are marks |
| `OutboxProtocol.MarkedIsNeverClaimed` | internal/storage/memory/outbox_repository.go:79-92 | sent and failed messages are never claimed again |
| `OutboxProtocol.TraceIsRun` | internal/service/outbox/worker.go:215-244 | the worker's traces are runs of a pass of that machine |
| `DeadLetter.OutboxRoundTrip` | internal/service/outbox/worker.go:285-315 | replaying a dead-lettered outbox message sends the publisher's own envelope exactly when no field is blank but not empty, and then its key; a payload that is no JSON gives no dead letter |
| `DeadLetter.ConsumerRoundTrip` | internal/messaging/kafka/consumer.go:240-259 | replaying a consumer dead letter sends the same topic, key and value exactly for a non-empty UTF-8 value, a UTF-8 key and a topic that survives trimming |
| `DeadLetter.FormatsAreTold` | cmd/dlq-reprocess/main.go:434-487 | the reader never takes one dead-letter format for the other |
| `DeadLetter.SanitizeLossless` | internal/messaging/kafka/consumer.go:240-259 | turning bytes into JSON text loses nothing exactly for valid UTF-8 |
| `DeadLetter.EnvelopeIs` | internal/messaging/kafka/outbox_publisher.go:28-56 | the publisher's envelope has exactly the event's fields, its payload and the time, under the aggregate's key or else the event's own |
| `DeadLetter.OutboxDeadLetterIs` | internal/service/outbox/worker.go:285-315 | the worker's dead letter is such an envelope around the event, the publish error and the time it was given up |
| `DeadLetter.ConsumerDeadLetterIs` | internal/messaging/kafka/consumer.go:240-259 | the consumer's dead letter has the origin, key and value of the message, the error, the time and the retries |
| `DeadLetter.OutboxIsRead` | cmd/dlq-reprocess/main.go:449-487 | any document without an original value is skipped without a payload, unsupported without an inner payload, and otherwise replayed to the default topic with each inner field preferred over the outer one unless blank |
| `DeadLetter.ConsumerIsRead` | cmd/dlq-reprocess/main.go:434-447 | any document with an original value is replayed as that value under its key, to its own topic unless that is blank |
| `Replay.Replayer.Scan` | cmd/dlq-reprocess/main.go:340-416 | reads every tick up to the first that stops it (limit, end offset, closed, idle, canceled, consumer error, failed send); replayed are exactly the readable messages read, skipped the others; in execute mode each replay is one send, tried once, and only a send that failed counts as such |
| `Replay.Replayer.Handle` | cmd/dlq-reprocess/main.go:384-402 | a message is replayed exactly when it can be read and, in execute mode, its one send succeeds; skipped exactly when it cannot be read |
| `Replay.Replayer.ProcessPartition` | cmd/dlq-reprocess/main.go:305-416 | the same from the chosen start offset up to the newest offset sampled; without a limit, offsets, messages or a consumer nothing is read |
| `Replay.Replayer.RunReplay` | cmd/dlq-reprocess/main.go:244-297 | every partition in order is read like that with what the limit has left, until it is used up or one fails; what was sent is what was replayed, message by message, and the totals are the sums |
| `Replay.PartIsWithin` | cmd/dlq-reprocess/main.go:305-340 | replayed messages lie between the sampled offsets and, read from the newest, among the last the limit allows |
| `Replay.RunIsBounded` | cmd/dlq-reprocess/main.go:244-297 | all partitions together process no more than the limit, and processed is replayed plus skipped |
| `Consumer.HandleWithRetry` | internal/messaging/kafka/consumer.go:151-208 | which of the five ends a message comes to and after how many handler calls, decided by its retries, the handler, the waits and the dead-letter queue |
| `Consumer.Session.ConsumeClaim` | internal/messaging/kafka/consumer.go:116-148 | the committed offset is just past the highest message that was handled in time or whose dead letter was accepted after its calls were used up |
| `Consumer.LostWhenOvertaken` | internal/messaging/kafka/consumer.go:131-143 | a message that failed is never delivered again exactly when a later one was settled |
| `Consumer.FailedMessageIsLost` | internal/messaging/kafka/consumer.go:131-143 | two messages of which the first is neither handled nor dead-lettered nor delivered again |
| `CourierDomain.NormalizePhone` | internal/domain/courier.go:149-174 | the loop computes normalization as defined by the trimmed text as a whole |
| `CourierDomain.NormalizationLaws` | internal/domain/courier.go:149-174 | the result is a plus sign with 11 to 15 digits, has the digits of the input in order, and is a fixed point |
| `CourierDomain.CanonicalIsFixed` | internal/domain/courier.go:149-174 | every plus sign with 11 to 15 digits normalizes to itself |
| `CourierDomain.AcceptedNumbers` | internal/domain/courier.go:149-174 | a number is accepted exactly when it is written with digits, spaces, tabs, dashes and parentheses after at most one leading plus sign and has 11 to 15 digits; blank is missing |
| `CourierDomain.ValidateCourier` | internal/domain/courier.go:124-146 | the first complaint about a profile, and a canonical number when there is none |
| `CourierDomain.ProfileErrorsAre` | internal/domain/courier.go:124-146 | each complaint about a profile is the answer exactly when its field is at fault and none before it is |
| `CourierDomain.SlotErrorsAre` | internal/domain/courier.go:234-264 | the same for slots: named, in a range, of 4, 8 or 12 hours and exactly as long, with a known status |
| `CourierDomain.NightShiftIs` | internal/domain/courier.go:88-109 | a slot is a night shift exactly when it begins at 17:00 UTC of some day, which is 20:00 in Moscow, and lasts twelve hours |
| `CourierDomain.OverlapsWhen` | internal/storage/memory/courier_repository.go:502-504 | slots overlap exactly when some instant lies in both |
| `CourierDomain.ValidateTags` | internal/domain/courier.go:346-366 | the complaints about the tags in order, each tag judged against the ones before it, and whether a negative one is present |
| `CourierDomain.ValidateRating` | internal/domain/courier.go:333-372 | every complaint in the order they are collected |
| `CourierDomain.RatingErrorsAre` | internal/domain/courier.go:333-372 | the whole list of complaints, each with the condition that puts it there |
| `CourierDomain.TagComplaintIs` | internal/domain/courier.go:346-366 | a tag is complained about as unknown, as repeated, or as negative at the best score, and otherwise not |
| `CourierDomain.NoRatingErrors` | internal/domain/courier.go:333-372 | there is no complaint exactly for acceptable ratings |
| `CourierZones.CountOthers` | internal/storage/memory/courier_repository.go:524-535 | the number of other couriers holding a zone, in any walk order |
| `CourierZones.HasRoom` | internal/storage/memory/courier_repository.go:506-522 | the check that skips held zones |
| `CourierZones.ChecksAgree` | internal/storage/postgres/courier_repository.go:744-766 | within capacity, skipping held zones decides exactly as counting every zone does |
| `CourierZones.ChecksDifferWhenOverfull` | internal/storage/memory/courier_repository.go:506-522 | for every courier of an overfull zone the two checks disagree |
| `CourierZones.ReplacementFits` | internal/storage/memory/courier_repository.go:242-250 | replacing a courier's zones by ones that fit keeps every zone at 100 couriers or fewer |
| `CourierZones.Prepare` | internal/storage/memory/courier_repository.go:213-234 | the first complaint about the list, or the canonical list, distinct, with its primaries counted |
| `CourierZones.ZoneErrorsAre` | internal/domain/courier.go:188-199 | a zone is missing when its canonical name is empty and otherwise refused exactly when it is not known |
| `CourierZones.NoComplaint` | internal/storage/memory/courier_repository.go:217-234 | no complaint exactly when every zone is known and none repeats after normalization |
| `CourierZones.AssignmentHasOnePrimary` | internal/storage/memory/courier_repository.go:236-249 | an accepted list yields exactly one primary zone |
| `CourierSlots.FindClash` | internal/storage/memory/courier_repository.go:312-319 | a clash is found exactly when a slot that is not canceled overlaps |
| `CourierSlots.NewSlotFits` | internal/storage/memory/courier_repository.go:308-329 | adding a slot that clashes with none keeps slots disjoint and of allowed length |
| `CourierSlots.WindowHoldsItsSlots` | internal/storage/memory/courier_repository.go:502-504 | disjoint slots of exact length inside a window never add up to more hours than the window has |
| `CourierRatings.Summarize` | internal/storage/memory/courier_repository.go:449-489 | every counter is the number of ratings it stands for, the total their sum, the last time the latest |
| `CourierRatings.WalkDescribes` | internal/storage/memory/courier_repository.go:449-489 | any walk that visits each rating once gathers that description |
| `CourierRatings.OrderDoesNotMatter` | internal/storage/memory/courier_repository.go:449-489 | the description has one solution, so all walks give the same summary |
| `CourierRatings.SummaryLaws` | internal/storage/memory/courier_repository.go:400-493 | score counts sum to the total, low is ones plus twos and at most the negative tags, each negative tag is at most total minus fives |
| `CourierRatings.AverageInRange` | internal/storage/memory/courier_repository.go:491-492 | the exact average is the total divided by the count and lies in 1..5 |
| `CourierRegistry.IndexAgreesWithScan` | internal/storage/memory/courier_repository.go:58-61 | the index says a number is taken by another exactly when a scan of the profiles does |
| `CourierRegistry.PhonesAreUnique` | internal/storage/memory/courier_repository.go:58-61 | two couriers never share a number |
| `CourierRegistry.SaveKeepsVehicleRules` | internal/storage/memory/courier_repository.go:116-153 | a save keeps the vehicle rules exactly when it does not take the car from a courier who needs it |
| `CourierRegistry.TradeTheCar` | internal/storage/memory/courier_repository.go:116-153 | from an empty registry three accepted calls lose the vehicle rules, for every valid profile without a car and every acceptable list of several zones |
| `CourierRegistry.Registry.Create` | internal/storage/memory/courier_repository.go:42-75 | the exact error decided by scanning profiles, or the profile stored with its canonical number; the registry stays valid |
| `CourierRegistry.Registry.Save` | internal/storage/memory/courier_repository.go:116-153 | the same for an update; index and profiles stay exact inverses, vehicle rules kept or lost as stated |
| `CourierRegistry.Registry.GetByPhone` | internal/storage/memory/courier_repository.go:94-114 | finds a courier exactly when a scan would, with the error cases of normalization |
| `CourierRegistry.Registry.ReplaceZones` | internal/storage/memory/courier_repository.go:193-253 | the exact error, spelled out by `ZoneAnswersAre`, or exactly the requested assignment, the first zone primary if none is; capacity, one primary zone and vehicle rules are kept |
| `CourierRegistry.Registry.CreateSlot` | internal/storage/memory/courier_repository.go:284-331 | the exact error, spelled out by `SlotAnswersAre`, or exactly one slot more, planned unless it has a status and stamped; slots stay disjoint and night slots stay with cars |
| `CourierRegistry.SlotAnswersAre` | internal/storage/memory/courier_repository.go:284-331 | a valid slot is refused exactly for an unknown courier, for a courier without a car at night, or for a used id or an instant already booked |
| `CourierRegistry.ZoneAnswersAre` | internal/storage/memory/courier_repository.go:193-253 | a request for known zones named once is refused exactly for several zones without a car, two primaries, or a zone that a hundred others hold and the courier does not |
| `CourierRegistry.ProfileAnswersAre` | internal/storage/memory/courier_repository.go:42-153 | a valid profile is refused exactly over its id or over a number that another profile holds |
| `CourierRegistry.Registry.BookedHoursFit` | internal/storage/memory/courier_repository.go:284-331 | in every valid registry a courier's booked hours inside any window are at most the window's length |
| `CourierRegistry.Registry.SubmitRating` | internal/storage/memory/courier_repository.go:400-426 | the exact error, starting with the first complaint about the rating, or exactly one rating more |
| `CourierRegistry.Registry.GetRatingSummary` | internal/storage/memory/courier_repository.go:428-493 | a summary that describes the courier's ratings and obeys the laws |
| `MigrationNames.NamesAreRead` | internal/storage/postgres/migrator.go:33-33 | a file name is refused exactly when it is not digits, an underscore, a name of letters, digits and underscores, and .up.sql or .down.sql; otherwise it is read by its only such match |
| `MigrationNames.WrittenIsRead` | internal/storage/postgres/migrator.go:298-305 | a version written in decimal, with any leading zeros, comes back, unless 64 bits cannot hold it |
| `MigrationLoader.ClassifyIs` | internal/storage/postgres/migrator.go:296-312 | a file is read with the version, name and direction its name was written with and with its contents, or as unreadable or too large |
| `MigrationLoader.CollectAll` | internal/storage/postgres/migrator.go:295-341 | collecting succeeds exactly on consistent files and gathers exactly their bodies; otherwise it names the complaint about the first file that does not fit |
| `MigrationLoader.Load` | internal/storage/postgres/migrator.go:286-364 | succeeds exactly on well-formed files; the result is strictly sorted and has for each version the two bodies of its files; otherwise the error names what is wrong first |
| `MigrationLoader.LoadSources` | internal/storage/postgres/migrator.go:286-364 | the same from base names and contents |
| `MigrationLoader.LoadedIsUnique` | internal/storage/postgres/migrator.go:343-363 | consistent files have one such result |
| `MigrationLoader.OrderDoesNotMatter` | internal/storage/postgres/migrator.go:286-364 | neither success nor the result depends on the order of the files |
| `MigrationLoader.SourceOrderDoesNotMatter` | internal/storage/postgres/migrator.go:286-364 | the same for names and contents |
| `Migrator.NewestIsSorted` | internal/storage/postgres/migrator.go:259-284 | the rollback query lists the applied versions, newest first |
| `Migrator.Database.ApplyOneUp` | internal/storage/postgres/migrator.go:188-212 | body and record are applied together or not at all |
| `Migrator.Database.ApplyOneDown` | internal/storage/postgres/migrator.go:214-235 | body and deletion are applied together or not at all |
| `Migrator.Database.ApplyUp` | internal/storage/postgres/migrator.go:138-159 | adds the oldest waiting versions, as many as asked for and all without a positive number, ending early only at a failing transaction, and reports success exactly when it did not; the schema follows |
| `Migrator.Database.ApplyDown` | internal/storage/postgres/migrator.go:161-186 | removes the newest applied versions, as many as asked for and one without a positive number, ending early only at a failing transaction or an unknown version, and reports success exactly when it did not; the schema follows |
| `Migrator.DownRollsBack` | internal/storage/postgres/migrator.go:161-186 | what a down call computes is such a rollback |
| `Migrator.OneStepByDefault` | internal/storage/postgres/migrator.go:63-70 | without a positive number of steps exactly the newest version goes, or nothing if it cannot be rolled back |
| `Migrator.UpRaises` | internal/storage/postgres/migrator.go:138-159 | what an up call computes is such a climb |
| `Migrator.AllByDefault` | internal/storage/postgres/migrator.go:57-61 | without a positive number of steps and without failures everything in the list is applied |
| `MigratorRuns.AppliedStaysPrefix` | internal/storage/postgres/migrator.go:138-235 | through every sequence of calls with any failures the applied set is a prefix of the list |
| `MigratorRuns.SchemaFollowsTable` | internal/storage/postgres/migrator.go:188-235 | when rollbacks invert their migrations the schema is always that of the applied prefix |
| `MigratorRuns.UpThenDown` | internal/storage/postgres/migrator.go:57-70 | without failures up n then down n restores the applied set exactly when n migrations were left or none was applied |
| `MigratorRuns.UpThenDownLosesOne` | internal/storage/postgres/migrator.go:57-70 | with its only migration applied, up 1 then down 1 leaves none |
| `MigratorRuns.UpThenDownSchema` | internal/storage/postgres/migrator.go:57-70 | and then the schema too, when rollbacks invert their migrations |

## Left out

- SagaOrchestrator.Orchestrator.Start: calls run one after another; overlapping calls are the step machine's subject.
- Each order has its own step-machine world; orders share no state in the store but the map, so runs over several orders are products of these.
- A save that commits and still reports an error, 64-bit version overflow and statuses outside the six constants.
- The update time of the caller's copy after a rejected save, which the code does not restore before reloading.
- Failing outbox inserts inside the saga, the timeline, metrics and saga events sent to Kafka.
- OutboxStore.PullsAreALeaseApart: for messages enqueued under new ids.
- JSON as text: case-insensitive key matching, number formats and duplicate keys; SHA-256 and protobuf are injective encodings.
- Replay.Replayer.RunReplay: partitions come in the given order; sorting them only fixes which are reached before the limit.
- CourierRegistry.Registry.ReplaceZones: lower-casing and the zone catalogue are a given function and a given set.
- Listing queries of the courier registry (zones, slots, couriers of a zone, vehicle capabilities) and getting a courier by id: filters and sorts without a law of their own.
- The floating-point average; the exact quotient is used.
- MigrationLoader.LoadSources: listing the directory; the files it finds are given.
- The advisory lock, timeouts and connection handling of the migrator; every transaction is atomic and may fail.
- Mutexes: repository methods are atomic.
- Postgres repositories, except for the decision of the zone check.
- The order service's branches without a saga, the retrying orchestrator, the circuit breaker and the batch processor.
- gRPC and Kafka plumbing, health checks, configuration and the load tool.
