# A verified model of PayRouter's money and event layer

PayRouter speaks the Stripe API to merchants and forwards payments to regional gateways. Its request
handlers, webhook deliveries, a reconciler and a deliverer share database rows under leases, retries and
crashes. This project models those rows and the code that changes them, and proves what survives.

Conventions used throughout:

- A table is a map or a sequence of rows, and one SQL statement or one short transaction is one atomic
  step. The long transaction of a webhook is taken apart into its statements, each of which may fail, and
  the process may die between any two; what it wrote reaches the tables when it commits, all of it or none.
  Statements that the program sends over a connection of their own (`s.store.Put…`) commit at once and stay
  when that transaction is rolled back.
- Each statement that the program runs is a method on a class (`IdempotencyStore`, `RefundStore`,
  `InboundStore`, `OutboundStore`, `PaymentStore`, `MemoryStore`, `DeliveryQueue`) whose postcondition
  gives the whole new state as a function of the old one. A `…Protocol` or `…Runs` module then runs those
  same functions over every sequence of events, which may interleave any number of workers, late and
  repeated messages, lost commits and crashes, and proves its results by induction over that sequence.
- Clocks, provider answers and merchant answers are parameters, and so is what becomes of each lookup,
  statement and commit: a program gets the next of them and cannot choose it. Draws of random numbers are
  arbitrary values within their range. A claim token is the number of its claim, so it is never drawn twice.
  SHA-256 digests are opaque strings and the MAC of the signer is an arbitrary function.

| file | what it models |
|---|---|
| `Idempotency.dfy` | idempotency records, their 30 second lease without an owner, the middleware |
| `Refunds.dfy` | refund rows, the reservation of a refund, the refund handler |
| `Inbound.dfy`, `Outbound.dfy` | the durable log of notifications and the transactional outbox, with their leases |
| `Leases.dfy` | what the two leases share: claims and their tokens, fencing, taking the due rows in order |
| `PaymentEvents.dfy` | the payment tables, their statements, and a handler that applies provider events |
| `PaymentHandler.dfy`, `PaymentLocks.dfy` | what such a handler keeps at every statement, and when it waits for itself |
| `PaymentStores.dfy` | the store as an object: transactions, statements, and the loops over events |
| `PaymentRuns.dfy` | runs over the payment tables: webhooks, reconciler, creates, checkouts, confirmations |
| `Dedup.dfy` | the webhook handler: claim, apply and complete in one transaction |
| `Indexes.dfy`, `Memory.dfy` | the in-process store and its secondary indexes |
| `Notifications.dfy` | applying provider events to the in-process store, and the router between handlers |
| `Subscriptions.dfy`, `SubscriptionSteps.dfy`, `SubscriptionRuns.dfy` | create, save-card, cycle and cancel of a subscription; what each step writes when lookups and writes may fail; runs of such steps |
| `Deliverer.dfy`, `Drains.dfy` | the in-process drain, and the two drains of the durable tables |
| `Router.dfy`, `OrderIds.dfy` | least-cost routing and order ids |
| `Checkout.dfy`, `Signer.dfy` | line items of a form, the signature header |
| `Text.dfy`, `Statuses.dfy`, `Wrappers.dfy` | string functions, shared constants, `Option` |

Where a property one would expect is false of the code, the project keeps the code, proves the exact
condition, and shows a run or an input that fails:

- Refunds may exceed the payment, because a failed refund is put back to pending without another look at
  the balance: `ExceedsIffRevivedBeyond`; the run is `RevivalCanExceed`.
- Two handlers may run for one idempotency key once the first outlives its lease: `SecondOwnerIff`; the run
  is `StaleOwnerOverlaps`. The answers they lead to still agree: `AnswersAgree`.
- Not every status change that a provider event causes has a transition and a payment event: a save-card
  event marks the authorization intent as paid with neither, and outside the transaction:
  `OnlySavedCardsAreSilent`; the run is `SavedCardIsSilent`. What such an event leaves behind when the
  transaction aborts is the exact exception to its rollback: `AbortIsCleanIff`.
- The transitions of an intent need not explain its status: `StepKeepsExplainedIff` lists the silent
  changes; the run is again `SavedCardIsSilent`.
- A status that the merchant was told need not last: `StepKeepsAnnouncedIff` lists the untold changes; the
  run, in which the second write of a create overwrites a success, is `CreateOverwritesSuccess`.
- A batch of notifications that is sent twice changes nothing the second time only if no two of its events
  give one intent different statuses: `SecondApplicationIsQuietIff`; the batch is
  `ConflictingBatchStartsOver`.
- A canceled subscription can leave that status: `CanceledReopensIff`; the run is
  `CanceledCanStillActivate`.
- A subscription can be registered with the gateway more than once, when the store does not learn of a
  registration: `RegisteredOncePlusLost` and `RegistersAgainIff`; the run is `LostWriteRegistersAgain`.
- An active subscription can have an unpaid first invoice: `ActiveMeansPaidIff`; the run is
  `ActivationCanBeCutShort`, and the invoice stays unpaid in every continuation: `UnpaidForGood`.
- An unpaid invoice can have a payment event, and a paid one none or several: `EventsAreAnnounced` and
  `StepKeepsOneEventIff`; the runs are `OpenInvoiceIsAnnounced` and `LostWriteRegistersAgain`.
- One reference can get a second paid invoice: `OneInvoicePerReferenceIff`; the run is
  `LostLookupRecordsAgain`.
- A handler inside a transaction can wait for a row that it has locked itself: `EndsUnlessItWaits`; the
  notification is that of `StatusThenSavedCardWaits`.
- Form keys such as `line_items[0]` and `line_items[00]` clash, and then the lines depend on the order in
  which the form is iterated: `OrderIndependentIff`; the form is `ClashingFormIsOrderDependent`.
- A secondary index agrees with its rows throughout a run of writes only if keys are unique and fixed:
  `AlwaysAgreesIff`; the writes are `MovedKeyIsStale`.
- The fee of the cheapest provider depends on the order of the candidates where the empty provider name ties
  for it: `FeeIgnoresOrderIff`, whose proof builds the two orders.

Where comments and code of the repository disagree, the code is modelled: the backoff table's comment
promises an immediate first retry, but attempts are counted from one when a delivery fails, so its zero
entry is never used (`Deliverer.RetriesAreLater`); and the outbox's comment says that an exhausted event is
left `failed` with no next attempt, but it becomes `dead`.

## Model

| member | source | states |
|---|---|---|
| Idempotency.IdempotencyStore.ClaimIdempotency | internal/storepg/store.go:187-229 | the answer of a claim and the new table for every phase of the row: a new key is owned, another body is refused before the phase is looked at, a completed row is replayed, a failed or expired one is taken over with a new lease, a live one is refused |
| Idempotency.IdempotencyStore.CompleteIdempotency | internal/storepg/store.go:231-240 | only a row still in progress is completed, and the caller is told exactly when none was |
| Idempotency.IdempotencyStore.FailIdempotency | internal/storepg/store.go:242-245 | only a row still in progress is failed |
| IdempotencyProtocol.AnswersAgree | internal/server/server.go:163-213 | in every interleaving of clients, crashes, lost commits, expired leases and stale owners, all definite answers for one key carry one response and one request body, and no key is completed twice |
| IdempotencyProtocol.AnswerIsFinal | internal/server/server.go:181-187 | after a definite answer, any later request with that key and body gets exactly that response replayed, whatever ran in between |
| IdempotencyProtocol.TimelyRunsExclude | internal/server/server.go:190-202 | if every run ends within its own lease, at most one run per key is in flight and no finalization is refused |
| IdempotencyProtocol.TimelyRunsAnswer | internal/server/server.go:190-213 | then the client of a run that ends gets what the run produced, and below 500 the key is completed with it |
| IdempotencyProtocol.FirstRequestRuns | internal/storepg/store.go:187-200 | a key that no request has carried before starts a run, with a lease of 30 seconds |
| IdempotencyProtocol.FailedKeyRunsAgain | internal/storepg/store.go:221-226 | after a run has ended with a status of 500 or more while its row was in progress, the next request for that key and body starts a new run, whatever happens in between and whatever the clocks say |
| IdempotencyProtocol.CrashedKeyRunsAgainIff | internal/storepg/store.go:221-229 | while no run of the key finishes, a request for the key and body that comes strictly after the lease starts a new run, and one that comes within it is answered with 409 |
| IdempotencyProtocol.StaleRunsAnswer | internal/server/server.go:190-213 | a run that ends with 500 or more is answered with what it produced whatever has become of its row, and a stale one below with an error that changes no row |
| IdempotencyProtocol.SecondOwnerIff | internal/storepg/store.go:221-228 | while a run holds the row, a second owner appears if and only if the body is the same and the first lease has strictly passed |
| IdempotencyProtocol.StaleOwnerOverlaps | internal/storepg/store.go:221-240 | a reachable overlap of two runs, in which the later completion is refused and its client gets an error |
| IdempotencyProtocol.Serve | internal/server/server.go:163-213 | the middleware without interference is an arrival followed by an acknowledged finish of the protocol, with the same table and the same single reply |
| Refunds.RefundStore.WriteRefund | internal/storepg/store.go:317-325 | inserts the row, or changes nothing but the status of the row with that id |
| Refunds.RefundStore.ReserveRefund | internal/storepg/store.go:330-375 | the error, the amount and status filled into the command, and the table, for every branch: unknown payment, resumed row, mismatch, revived row, remainder, excess |
| Refunds.ZeroAmountReservesRemainder | internal/storepg/store.go:366-373 | a refund of no stated amount reserves exactly the remainder, and is refused exactly when nothing is left |
| Refunds.NewRefundIsReservedIff | internal/storepg/store.go:330-375 | a new id is reserved exactly if the payment is the account's and has that much left; then its row is added and the reserved sum grows by it, and otherwise nothing changes and the error says which |
| Refunds.ReservingTwiceReservesOnce | internal/storepg/store.go:336-358 | resuming a reservation under the same id gives the same outcome and the same table again |
| Refunds.UpsertMovesBalance | internal/storepg/store.go:317-325 | each write changes what is reserved on every payment by exactly the ledger moves it stands for |
| RefundProtocol.RefundsConserve | internal/server/refund.go:74-151 | in every run the pending plus succeeded total is what was reserved plus revived minus released, and at most the amount paid plus what was revived |
| RefundProtocol.WithoutRevivalNoExcess | internal/storepg/store.go:362-372 | without a revival the refunds of a payment never exceed it |
| RefundProtocol.ExceedsIffRevivedBeyond | internal/storepg/store.go:353-356 | a covered payment stops being covered exactly by a step that revives a row for more than the remainder |
| RefundProtocol.RevivalCanExceed | internal/storepg/store.go:353-356 | for every amount, a run of four steps after which twice the payment is reserved |
| RefundProtocol.AnswersSettle | internal/server/refund.go:99-146 | in every run, the provider's answer is stored as it is, with an empty one as success and a rejection as failure, every other row stays, and the money stays taken exactly if the answer is empty, succeeded or pending |
| RefundProtocol.CreateRefund | internal/server/refund.go:74-160 | the handler without interference is a reservation followed by the final write; a refund that succeeded before is not sent to the provider again; on 200 the stored status is the reported one, on a rejection it is failed; a new refund lowers what is left of the payment by its amount exactly if the provider takes it; the status codes of the outcomes |
| Inbound.ConflictIsFoundOnce | internal/storepg/inbound.go:143-152 | an insert hits one of the two unique indexes if and only if the duplicate lookup finds a row, it finds one only, and that row stands for the same notification |
| Inbound.InboundStore.ClaimInbound | internal/storepg/inbound.go:27-55 | owned exactly when no row has the notification's identity; then the new row, otherwise the existing one and an unchanged table |
| Inbound.InboundStore.CompleteInbound | internal/storepg/inbound.go:59-106 | the new row on success, on failure and on exhaustion; a lost claim or a bad limit leaves the table unchanged; the lease's deadline plays no part |
| Inbound.InboundStore.ReclaimStuckInbound | internal/storepg/inbound.go:112-141 | leases the oldest due row that is not locked, with one more attempt, or nothing when none is due; refuses a lease out of range |
| Inbound.RetryDelay | internal/storepg/inbound.go:188-205 | the clamped exponential delay, scaled by the jitter |
| Inbound.DelayBounds | internal/storepg/inbound.go:188-205 | for attempts 1 to 8 the delay lies within 80% and 120% of 2^(n-1) seconds whatever the jitter |
| Inbound.DelaysIncrease | internal/storepg/inbound.go:188-205 | a later attempt waits strictly longer whatever the two jitters |
| Inbound.DelayIsPositive | internal/storepg/inbound.go:188-205 | every retry is due strictly later, for any count of attempts |
| InboundProtocol.CompletionTakesEffectIff | internal/storepg/inbound.go:66-105 | in every reachable state a completion changes the table if and only if it carries the token of the row's latest claim and that claim has not completed; otherwise nothing changes, and it never touches another row |
| InboundProtocol.ClaimsCompleteOnce | internal/storepg/inbound.go:77-106 | no claim completes twice |
| InboundProtocol.FailuresAreBounded | internal/storepg/inbound.go:88-106 | at most the limit of recorded failures even with crash reclaims, failed below and dead at or above the limit, token and deadline exactly while in progress |
| InboundProtocol.TerminalRowsStay | internal/storepg/inbound.go:120-134 | an applied or dead row is never changed again by any continuation |
| InboundProtocol.IdentitiesStayUnique | migrations/0008_inbound_events.sql:27-33 | no two rows ever stand for one notification |
| InboundProtocol.DueExactly | internal/storepg/inbound.go:121-134 | in every reachable state a failed or pending row is due from its own time on, one in progress strictly after its deadline, an applied or dead one never, each for its own gateway only; a reclaim leases exactly a due row, with one more attempt, and changes nothing else |
| InboundProtocol.FailureIsRetried | internal/storepg/inbound.go:88-106 | after a recorded failure the row is not due before 80% and is due after 120% of 2^(n-1) seconds, until it is leased, or is dead at the limit |
| InboundProtocol.ForgottenIsReclaimed | internal/storepg/inbound.go:37-41 | a new notification is claimed with its first attempt, and is due again strictly after 30 seconds if nobody completes it |
| Outbound.OutboundStore.EnqueueOutbound | internal/storepg/outbound.go:23-39 | inserts a pending row with the default limit and due time filled in, or changes nothing when the id is there |
| Outbound.OutboundStore.LeaseDueOutbound | internal/storepg/outbound.go:44-73 | leases a due row that comes first by next attempt and creation and is not locked, or nothing; a pending row is due whatever its next attempt |
| Outbound.OutboundStore.CompleteOutbound | internal/storepg/outbound.go:80-127 | the delivered, failed or dead row under the lease's token; a lost claim or a bad limit leaves the table unchanged |
| Outbound.OutboundStore.ReplayOutbound | internal/storepg/outbound.go:173-185 | a delivered or failed row becomes pending with its attempts kept; any other row, dead ones included, is not found |
| OutboundProtocol.CompletionTakesEffectIff | internal/storepg/outbound.go:84-127 | fencing as for notifications, with manual replays in the run |
| OutboundProtocol.ClaimsCompleteOnce | internal/storepg/outbound.go:95-127 | no claim completes twice |
| OutboundProtocol.FailuresAreBounded | internal/storepg/outbound.go:109-127 | at most the row's own limit of recorded failures whatever crashes and replays happen, failed below and dead at or above it, token and deadline exactly while in flight |
| OutboundProtocol.DeadRowsStay | internal/storepg/outbound.go:52-67 | a dead row is never leased, replayed or changed again |
| OutboundProtocol.TokenPinsRow | internal/storepg/outbound.go:84-118 | between the reading and the writing statement of a completion, a row that still holds the token is the very same row, whatever ran in between |
| OutboundProtocol.DueExactly | internal/storepg/outbound.go:52-67 | in every reachable state a pending row is due at once, a failed one from its own time on, one in flight strictly after its deadline, a delivered or dead one never; a lease takes exactly a due row and changes nothing else |
| OutboundProtocol.FailureIsRetried | internal/storepg/outbound.go:103-127 | after a recorded failure the row is due exactly from the time given for the retry on, until it is leased or replayed, or is dead at its own limit |
| OutboundProtocol.QueuedIsDue | internal/storepg/outbound.go:23-39 | a queued event is due at once, with no attempts and the limit it was given, or five |
| OutboundProtocol.ReplayedIsDueIff | internal/storepg/outbound.go:173-185 | a delivered or failed event is due at once when it is replayed, and any other stays as it is |
| PaymentStores.PaymentStore.EndTx | internal/storepg/store.go:51-62 | a commit writes all that the transaction has pending, a rollback none of it |
| PaymentStores.PaymentStore.Execute | internal/storepg/store.go:73-78 | a statement goes to the open transaction, to a connection of its own, or commits directly, and succeeds or fails as the given course says; in a transaction the first failure refuses all that follow |
| PaymentStores.PaymentStore.ApplyPayment | internal/server/webhook.go:165-207 | whatever fails, a payment event takes the effect that the given course of lookups and statements lets it, and reports a failure exactly when the status change was reported as failed |
| PaymentStores.PaymentStore.ApplySavedCard | internal/server/webhook.go:355-398 | whatever fails, a saved card takes the effect that the given course of lookups and statements lets it, up to where it waits for a row that its own transaction has locked |
| PaymentStores.PaymentStore.ApplyInboundEvents | internal/server/webhook.go:134-138 | the loop over the events follows the given course and reports whether a status change was reported as failed; where nothing fails, every event has its effect on the tables in turn, unless the handler waits for itself |
| PaymentEvents.AllLandIsApplyAll | internal/server/webhook.go:126-144 | where every statement succeeds, a handler that has finished has committed the effect of its events one after the other, inside a transaction as well as outside, and one that has not sees their effect so far |
| PaymentEvents.ApplyIsApplied | internal/server/webhook.go:165-207 | on the tables, an event that lands moves the status of the intent it names unless it has that status, with the failure text of a failure and none after a success, one transition, one event, and on success the session and its event; a saved card marks its intent as paid and registers the subscription that waits for it |
| PaymentEvents.ApplyAllInTurn | internal/server/webhook.go:134-138 | a list of events has the effect of each in turn on the tables the one before left |
| PaymentEvents.FailureAborts | internal/server/webhook.go:126-144 | once a read or a statement of the transaction, its completion or its commit has failed, ignored or not, whatever follows it does not commit |
| PaymentLocks.EndsOrWaits | internal/server/webhook.go:126-144 | whatever fails, after a number of moves bounded by the number of events a handler has ended or waits for a row locked by its own transaction |
| PaymentLocks.EndsUnlessItWaits | internal/server/webhook.go:367-371 | where every statement succeeds, a handler ends with all its events applied, unless it runs in a transaction and a payment event changes the status of the intent that a later saved card of a waiting subscription marks as paid; then and only then it waits for itself |
| PaymentLocks.SingleEventEnds | internal/server/webhook.go:126-144 | a notification of one event never waits for itself |
| PaymentLocks.StatusThenSavedCardWaits | internal/server/webhook.go:367-371 | the notification that reports a new status of an authorization intent and its saved card waits for itself |
| PaymentEvents.PoolCommutes | internal/storepg/store.go:87 | what commits on its own connection, to a row the transaction has not locked, may as well have been written after what the transaction wrote before |
| PaymentHandler.AdvanceKeepsInv | internal/server/webhook.go:165-206 | at every statement of a transaction that can still commit, what it has written and will write for each intent is, change by change, one status, one transition and one payment event |
| PaymentHandler.ChangesLeadToStatus | internal/storepg/store.go:308-315 | the changes that status statements find and make in the tables account for the final status of each intent |
| PaymentRuns.StartRuns | internal/server/webhook.go:126-144 | in a run, a notification or its re-application goes exactly as its handler does alone, for every course of its statements, failing ones included |
| PaymentRuns.UndisturbedHandlerApplies | internal/server/webhook.go:126-144 | where every statement lands, it ends after a bounded number of moves with every event in effect on the tables in turn, unless it is in a transaction and waits for itself |
| PaymentRuns.OtherStepsWrite | internal/server/paymentintent.go:90-177 | what creates, checkouts, subscriptions and confirmations write on the tables: a create's outcome over whatever status the intent has, with the create's transition; a confirmation the very row it read before |
| PaymentRuns.OutboxIsAtomic | internal/server/webhook.go:126-206 | on the transactional path, whatever fails, aborts or dies at any statement, the inbound transitions of an intent are exactly the changes that status statements made to its committed row, in order, and its payment events carry exactly the statuses it was changed to |
| PaymentRuns.OnlySavedCardsAreSilent | internal/server/webhook.go:366-371 | a move of a webhook handler changes a committed status without transition and event if and only if it marks an authorization intent as paid that was not |
| PaymentRuns.SavedCardIsSilent | internal/server/webhook.go:366-371 | a run in which that write stays although the transaction never commits, and in which the transitions do not explain the status |
| PaymentRuns.ReconcilerOnlyLoses | internal/server/reconcile.go:91-97 | with the reconciler in the run, broken off at any statement, an intent's transitions and payment events may be fewer than its committed changes but never more |
| PaymentRuns.StepKeepsExplainedIff | internal/server/webhook.go:184-194 | a step keeps an intent's transitions explaining its committed status if and only if it is none of the silent changes: a saved card, a re-applied change that loses its transition, a create begun over an intent that moved on, a confirmation that writes back an old status |
| PaymentRuns.TransitionsExplainStatus | internal/server/webhook.go:184-194 | over every run without a silent change of an intent, folding its transitions explains its stored status |
| PaymentRuns.StepKeepsAnnouncedIff | internal/server/paymentintent.go:138-157 | where an intent's last payment event carries its stored status, a step keeps that so if and only if it is none of the untold changes: the above, a lost payment event, and a create that ends with another status |
| PaymentRuns.AnnouncedStatusIsKept | internal/server/paymentintent.go:138-157 | from any reachable state, an announced status is kept or followed by another event in every continuation without an untold change |
| PaymentRuns.CreateOverwritesSuccess | internal/server/paymentintent.go:138-157 | a run in which a success is announced and then put back to what the provider call answered, so that it is not what the merchant was told any more |
| PaymentRuns.CreatePaymentIntent | internal/server/paymentintent.go:90-177 | the handler without interference is the first write followed by the second, or by the canceled status with its own transition when the provider refuses |
| Dedup.DuplicatesAreDropped | internal/server/webhook.go:126-133 | a delivery of a notification that was committed before changes nothing, whatever its course; leaving all of them out gives the same state |
| Dedup.FirstOnesAreDistinct | internal/server/webhook.go:131-133 | no notification is committed twice |
| Dedup.AbortIsCleanIff | internal/server/webhook.go:157-160 | a delivery that does not commit leaves nothing behind but completed sessions, wherever it breaks off, if and only if none of its events marks an awaited authorization intent or stores its schedule |
| Dedup.DuplicatesChangeNothing | internal/server/webhook.go:126-144 | deliveries with duplicates and aborted transactions anywhere, of which those that commit succeed in every statement and those that abort have nothing to mark, end like the events of the first committed delivery of each notification, once each and in order |
| Dedup.CompletedIsNotRead | internal/server/webhook.go:197-206 | sessions completed by a rolled-back transaction influence nothing else |
| Dedup.ApplyInTransaction | internal/server/webhook.go:126-144 | the transaction commits exactly where the given course reaches its end unbroken; then the payments are what the handler made of them, and otherwise only its pool statements stay; where nothing fails it commits with every event applied in turn, unless it waits for itself |
| Dedup.HandleWebhook | internal/server/webhook.go:109-147 | under the given course of lookups and statements the handler is one delivery of the notification; existing rows stay, and a new row is applied; a notification that is new and whose lookups and statements all succeed has its row applied and every event in effect on the tables in turn, unless it waits for itself |
| Indexes.LookupIsScan | internal/store/memory.go:120-133 | where index and rows agree, an indexed lookup equals a linear scan in any order of the rows |
| Indexes.PutKeepsAgreementIff | internal/store/memory.go:95-102 | one write keeps the agreement if and only if no other row has the key and the row's own key is not changed |
| Indexes.EntriesPointAtRecords | internal/store/memory.go:391-410 | after any writes at all, every index entry points at an existing record |
| Indexes.AlwaysAgreesIff | internal/store/memory.go:479-492 | the agreement holds throughout a run of writes if and only if keys are unique and never change once set |
| Indexes.MovedKeyIsStale | internal/store/memory.go:95-102 | a record whose key moves is still found under the old key, which a scan does not find |
| Memory.MemoryStore.StoreIntent | internal/store/memory.go:95-102 | stores the intent and indexes its gateway reference if it has one |
| Memory.MemoryStore.StoreSession | internal/store/memory.go:168-178 | stores the session and indexes its intent if it has one |
| Memory.MemoryStore.StoreSubscription | internal/store/memory.go:391-410 | stores the subscription and updates both of its indexes |
| Memory.MemoryStore.StoreInvoice | internal/store/memory.go:479-492 | stores the invoice and indexes its intent if it has one |
| Notifications.ProcessEvent | internal/server/webhook.go:245-286 | the whole effect of one event: status, failure message, one payment event, and on success the session and its event |
| Dispatch.DispatchAll | internal/server/webhook.go:86-103 | the loop over the events of a notification hands each to its handler and composes their effects |
| Dispatch.ResentBatchIsQuiet | internal/server/webhook.go:86-103 | a batch of payment events about distinct intents that is dispatched a second time changes nothing and queues nothing |
| Notifications.SecondApplicationIsQuietIff | internal/server/webhook.go:256-267 | applying a list of events a second time changes nothing and queues nothing, session completion included, if and only if no two of its events give one intent different statuses |
| Notifications.ConflictingBatchStartsOver | internal/server/webhook.go:256-267 | a batch that reports one intent as paid and then as canceled changes the store again when it is sent again |
| Notifications.DistinctIntentsAreConsistent | internal/server/webhook.go:256-267 | a list of events that resolve to distinct intents is a no-op the second time |
| Notifications.StatusComesFromEvents | internal/server/webhook.go:256-267 | after a list, an intent named by one of its events has the status of one of its events |
| Subscriptions.BuildSubscription | internal/server/subscription.go:178-235 | an incomplete subscription without schedule, its open first invoice, the authorization intent, the links between them, and one event |
| Subscriptions.ActivateSubscription | internal/server/webhook.go:355-412 | the whole effect of a save-card notification for every branch: unknown, already registered, refused, no invoice, complete |
| Subscriptions.RecordSubscriptionCycle | internal/server/webhook.go:417-445 | one paid invoice and one event for a new reference, nothing for an unknown subscription or a recorded reference |
| Subscriptions.CancelSubscription | internal/server/subscription.go:113-136 | the canceled record and its event, or nothing when it is not the account's or the gateway refuses; success is answered exactly when an event was queued |
| SubscriptionSteps.StepWrites | internal/server/webhook.go:355-445 | whatever lookups and writes fail, a step puts at most one intent, one subscription and one invoice, given field by field by the state and the step, queues at most one event about the subscription and one about a payment, and touches no other row |
| SubscriptionRuns.RegisteredOncePlusLost | internal/server/webhook.go:360-398 | over every run, a subscription is registered with the gateway once for each registration whose answer or whose write to the store was lost, plus once exactly if a gateway id is stored |
| SubscriptionRuns.RegistersAgainIff | internal/server/webhook.go:360-398 | a further save-card notification registers again if and only if the store learned of none of the earlier registrations |
| SubscriptionRuns.ActiveMeansPaidIff | internal/server/webhook.go:393-406 | an active subscription has a gateway id, and its first invoice is paid if and only if no step of the run stored the activation while the invoice was unpaid and missing, unreadable or not written |
| SubscriptionRuns.OneInvoicePerReferenceIff | internal/server/webhook.go:422-442 | over every run, each payment reference has at most one invoice if and only if no step recorded a cycle whose reference was recorded already, which takes a failed lookup of the reference |
| SubscriptionRuns.EventsAreAnnounced | internal/server/webhook.go:400-444 | over every run, an invoice has as many payment events as steps settled it with the event queued, and is paid if and only if a step settled it with the invoice written |
| SubscriptionRuns.StepKeepsOneEventIff | internal/server/webhook.go:400-444 | one event for a paid invoice and none for any other is kept by a step if and only if it does not settle a paid invoice again with an event, nor an unpaid one with only one of status and event |
| SubscriptionRuns.CanceledReopensIff | internal/server/webhook.go:355-398 | in every reachable state a step takes a canceled subscription out of that status if and only if it is a save-card notification for its authorization intent that is found, it has no schedule yet, and the gateway's registration is answered and gets stored |
| SubscriptionRuns.CanceledCanStillActivate | internal/server/webhook.go:360-398 | the run: created, canceled while incomplete, activated by a late notification |
| SubscriptionRuns.UnpaidForGood | internal/server/webhook.go:362-406 | a first invoice that is unpaid when its subscription has a schedule stays unpaid in every continuation of every run |
| SubscriptionRuns.ActivationCanBeCutShort | internal/server/webhook.go:398-406 | the run: created, then activated by a process that dies right after the stored subscription |
| SubscriptionRuns.OpenInvoiceIsAnnounced | internal/server/webhook.go:404-411 | the run: created, then activated with the write of the first invoice lost; the invoice is open and its payment event queued |
| SubscriptionRuns.LostWriteRegistersAgain | internal/server/webhook.go:360-411 | the run: created, activated with the write of the subscription lost, and notified again; two registrations and two events for one paid invoice |
| SubscriptionRuns.LostLookupRecordsAgain | internal/server/webhook.go:422-444 | the run: created, activated, charged, and charged again with the lookup of the reference failing; two paid invoices with one event each for one reference |
| Deliverer.DeliveryQueue.EnqueueWebhook | internal/store/memory.go:540-550 | stores the delivery as given, pending if it has no status |
| Deliverer.DeliveryQueue.LeaseDueWebhook | internal/store/memory.go:555-576 | takes the due delivery with the least id in the order of strings, or nothing exactly when none is due |
| Deliverer.DeliveryQueue.CompleteWebhook | internal/store/memory.go:581-599 | delivered, dead-lettered at the limit, or requeued; an unknown id changes nothing |
| Deliverer.RoundDecreasesWork | internal/store/memory.go:555-599 | one lease and completion makes exactly one attempt and leaves less remaining work, whatever the answer and the retry time |
| Deliverer.TotalAfterUpdate | internal/store/memory.go:555-599 | changing one delivery changes the work left and the attempts made by what changed for that delivery |
| Deliverer.DeliverOnce | internal/webhook/deliverer.go:85-99 | the drain ends for every backoff and every pattern of answers, leaves nothing due, touches only what was due, keeps each delivery within its limit of attempts, and returns the number of attempts made; each attempt posts the payload of the least due delivery, which is then delivered, failed at the limit, or pending until the time of its retry, as the merchant answered that post |
| Deliverer.AttemptsAreBounded | internal/store/memory.go:555-599 | over any interleaving of enqueues, leases and completions, late and repeated ones included, no delivery is attempted more often than its limit over its whole life, and one that waits has an attempt left |
| Deliverer.DueExactly | internal/store/memory.go:555-599 | a queued delivery is due at once, a leased one is not, and one that was answered is due again exactly if it was refused below the limit, from the time of its retry on |
| Deliverer.RetriesAreLater | internal/webhook/deliverer.go:157-169 | every retry after a failure is at least 30 seconds away, at most 30 minutes, and never sooner for a later attempt |
| Deliverer.RetriesAreAt | internal/webhook/deliverer.go:157-169 | the retries come after 30 seconds, 2, 10 and 30 minutes, and every later one after 30 minutes |
| Drains.DeliverNext | internal/webhook/deliverer.go:109-132 | one round claims the first due event, posts its payload, touches no other row, and leaves it not due: delivered exactly when the merchant accepted that post, dead by its limit or failed with its next attempt 30 seconds, 2, 10 or 30 minutes later otherwise, and in flight until its lease ends if its completion was lost |
| Drains.DeliverOnceDurable | internal/webhook/deliverer.go:106-134 | the pass ends, each due event is posted exactly once and in the order of the queue, each row ends as the merchant's answer to its own post and the fate of its own completion say, with the time of its retry, every other row stays, and the count is the number of due events |
| Drains.Reapply | internal/server/reconcile.go:90-97 | the events of a notification are re-applied outside any transaction under the given course of statements, to the last event, and the result is a failure exactly when some status change was reported as failed, also one that took effect; where nothing fails, every event takes effect in turn |
| Drains.ReconcileNext | internal/server/reconcile.go:65-74 | one round reclaims the oldest due notification and leaves it not due: applied exactly when it had events and no status change was reported as failed, dead by the limit or failed with a retry within a fifth of 2^(n-1) seconds otherwise, and in progress until its lease ends if its completion was lost |
| Drains.RunOnce | internal/server/reconcile.go:59-76 | the pass ends, each due notification is reclaimed exactly once and oldest first, each row ends as its own round says under the given course of statements and the given fates of completions, every other row stays, and the payments are what the rounds make of them in that order |
| Drains.UndisturbedPassAppliesAll | internal/server/reconcile.go:59-98 | a pass in which every statement succeeds has applied the events of all due notifications in turn on the tables, oldest notification first, and each row is applied unless its payload had no events or its completion was lost |
| Router.ComputeFee | internal/orchestrator/router.go:56-91 | base fee by type, then the platform's share, then the tax |
| Router.FeeHasParts | internal/orchestrator/router.go:56-91 | the fixed part, the percentage of the amount or both, plus the platform's share of the amount if it takes one, plus 11% or the configured rate unless the fee includes its tax |
| Router.HasCostIff | internal/orchestrator/router.go:40-94 | a provider has a cost exactly if it is configured, enabled and has the channel; the cost is a whole number of cents and within half a cent of the fee |
| Router.ChannelNames | internal/orchestrator/router.go:18-38 | which names stand for which channel |
| Router.CalculateCost | internal/orchestrator/router.go:40-94 | a cost exactly for an enabled provider with the normalized channel, rounded to cents |
| Router.SelectBestGateway | internal/orchestrator/router.go:97-136 | the earliest of the cheapest candidates and its fee, for some order of the configured providers when no candidates are given; otherwise the priority list, its head, or the default |
| Router.ChosenIsCheapest | internal/orchestrator/router.go:114-135 | the answer is that of a target of minimal rounded fee when some target has the channel, and the fallback's when none has |
| Router.FallbackIsFirst | internal/orchestrator/router.go:121-136 | the fallback is the first of the priority list that has the channel, at its cost, else the head of the list at no cost, and midtrans without a list |
| Router.FeeIgnoresOrderIff | internal/orchestrator/router.go:114-135 | the fee of the choice does not depend on the order of the candidates if and only if the empty name does not tie with another candidate for a fee that the fallback does not have |
| Router.CheapestIsCheapest | internal/orchestrator/router.go:93-120 | all cheapest candidates have one rounded fee, and the exact fee of each is within a cent of every other candidate's |
| Router.CostIsMonotone | internal/orchestrator/router.go:56-93 | with a non-negative percentage the rounded fee never falls when the amount grows |
| Router.RoundIsNear | internal/orchestrator/router.go:93 | rounding moves a value by at most one half |
| Router.RoundIsMonotone | internal/orchestrator/router.go:93 | rounding half away from zero keeps the order |
| OrderIds.ExtractOfFormat | internal/orchestrator/router.go:139-170 | extracting from a formatted id gives back provider and raw id for all four providers and every raw id |
| OrderIds.FormatOfExtract | internal/orchestrator/router.go:139-170 | whenever extraction names a provider, formatting gives back the input |
| OrderIds.NamedIffFormatted | internal/orchestrator/router.go:155-170 | extraction names a provider for exactly the ids that formatting can produce |
| Signer.ParseSignature | internal/webhook/signer.go:67-84 | the fields the last parts of the header set, or a failure with both results empty |
| Signer.LastPartsCount | internal/webhook/signer.go:67-84 | each field is what the last part of the header that names it says, a timestamp that is no number counting as zero, and empty if no part does |
| Signer.ParseOfSign | internal/webhook/signer.go:28-34 | parsing a signed header gives back its timestamp and the hex of its MAC, and fails exactly for the timestamp zero |
| Signer.VerifyOfSignIff | internal/webhook/signer.go:43-63 | verification accepts what signing produced if and only if the timestamp is not zero and the tolerance is not positive or at least the 64-bit age of the header in whole seconds, for every body, secret and non-empty MAC |
| Signer.OtherBodyNeedsSameMac | internal/webhook/signer.go:51-62 | a header is accepted for another body only if both bodies have one MAC |
| Signer.SignedTextTells | internal/webhook/signer.go:28-32 | no two pairs of a timestamp and a body have one signed text |
| LineGathering.OrderIndependentIff | internal/server/checkout.go:335-375 | the gathered lines do not depend on the iteration order if and only if no two keys set one field of one line to different values |
| Checkout.ClashingFormIsOrderDependent | internal/server/checkout.go:345-357 | a form that writes index 0 in two ways depends on the order in which it is iterated |
| LineGathering.LinesAreUnique | internal/server/checkout.go:335-375 | lines that say the same about the same keys are equal |
| LineGathering.GatherAllIsGathered | internal/server/checkout.go:335-375 | after the loop, the lines say exactly what some key of the form says, and miss no key |
| Checkout.CanonicalFormsAreOrderIndependent | internal/server/checkout.go:336-354 | keys whose indexes are non-negative and canonically written never clash, so any iteration order gives the same lines |
| Checkout.CanonicalIffWritten | internal/server/checkout.go:336-354 | the keys with canonical indexes are exactly those that write a natural number in decimal, without sign or leading zeros |
| Checkout.ResolveLineItems | internal/server/checkout.go:324-423 | some iteration order and the largest index explain the answer, and if no keys clash every order gives this answer |
| Checkout.ResolvedInOrder | internal/server/checkout.go:385-422 | one item per line with an index in range, sorted by index, each from its price or its inline data; or the first line that cannot be resolved |
| Checkout.AnswerIsSaid | internal/server/checkout.go:324-423 | from the keys of a form with canonical indexes to its items, in any iteration order: one item per line the form mentions, in order, with the amount, currency and name of the price it names or else its own, in lower case for the currency, and the positive quantity it gives or one; or the first line that says neither |
| Checkout.IndexesAreSorted | internal/server/checkout.go:386-390 | the visited indexes are strictly increasing and exactly those that have a line |
| Checkout.MaxIndex | internal/server/checkout.go:379-384 | the largest index, at least zero |
| Checkout.AmountTotal | internal/server/checkout.go:89-94 | the total is the 64-bit sum of unit amount times quantity, and the true sum whenever that fits |
| Checkout.WrapOfSum | internal/server/checkout.go:92-93 | wrapping at every step is wrapping once at the end |

## Left out

- Floating point in the router: amounts and rates are exact reals, the starting `math.MaxFloat64` is "no provider yet", and the rounding to cents is spelled out.
- Signer.VerifyOfSignIff: the whole seconds of the tolerance are taken by integer division, not through a float; an empty MAC is excluded because HMAC-SHA256 always has 32 bytes.
- Unicode: trimming knows the white space of Latin-1 and lower-casing the letters of ASCII.
- PaymentRuns.OutboxIsAtomic: the handlers of `PaymentRuns` run one after the other; two transactions that change one intent at the same time, where the second reads a status that the first is about to change, are not modelled.
- Dedup.DuplicatesChangeNothing: supposes that the committed deliveries succeed in every statement and lookup; a lookup that fails is taken by the code for an unknown order, so that its event is passed over and the notification still committed, which `PaymentEvents.AfterRead` models and `Dedup.DuplicatesAreDropped` covers.
- The rows of subscriptions and invoices and the events queued for them are in `Subscriptions`; the payment tables only keep which authorization intents still await a schedule, and events of billing cycles change nothing there.
- SubscriptionRuns.RegisteredOncePlusLost: random ids are fresh, references are not empty, and gateway ids of new schedules are new and not empty, as the gateway promises; a handler is one step, so two save-card notifications that both pass the guard at webhook.go:362 at the same moment, and register twice, are not modelled.
- SubscriptionRuns.OneInvoicePerReferenceIff: two notifications of one billing cycle at the same moment, which both miss the reference at webhook.go:422 and write two invoices, are not modelled either.
- SubscriptionSteps.StepWrites: the lookup of the database by gateway id takes an empty id for a value, and finds a subscription without a schedule for it; here, as in the in-process store, an empty id finds nothing.
- The assignment of gateway references and of sessions to intents is fixed in `PaymentEvents`, and a reference names at most one intent there; that an upsert writes the reference column too is not modelled.
- RefundProtocol.RefundsConserve: the amounts of the payments are fixed, since no refund step writes them, and `ReserveRefund` locks the payment row, so a reservation is one step.
- The checks of the refund handler before the reservation (missing parameters, an unknown intent, a malformed amount or reason) and the answers when a transaction itself fails.
- Aliasing in the in-process store, which keeps the objects it is given; records are values here, copied on every read and write.
- Response headers, JSON bodies and the error texts; an answer is a status and a body.
- How a command id and the hash of a request are derived from key and body: both are parameters, equal for equal requests.
- Columns that are carried along only: metadata, reasons, currencies of intents, attempts of the audit log.
- Gateway adapters, HTTP routing, authentication, configuration, catalog and list endpoints, migrations: they would add only easy members.
