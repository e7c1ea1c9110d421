# Payment gateway: a verified model

A Dafny 4.11 model of the payment gateway backend and proofs of what its money engine, its cache protocols and its
webhook outbox keep. `dafny verify dfyconfig.toml` checks everything.

## What is modelled

Amounts are whole cents; table rows are numbered by insertion, so a row's position is its id.

- **The money engine** (`Engine`, with `Orders`, `Payments`, `Refunds`, `Wallets`, `TtlCache`): orders, payments,
  refunds, wallets, the refund task queue, the per-payment lock and the clock as one transition system. Runs are
  arbitrary sequences of actions: service calls, single steps of any number of refund tasks, worker deaths, lost and
  redelivered messages, failing database writes, reconciliation sweeps, freezes, passing time.
  `RefundSafety` is the invariant and `TaskSteps` what a step writes; `RequestVerdicts`, `OrderExpiry`, `TaskOutcomes` and
  `AuditTrail` say what requests, sweeps and tasks do in every reachable state; `RefundTheorems`, `RefundLedgers`, `FullRefunds`,
  `Payouts`, `MutualExclusion`, `RetryTermination`, `WalletConservation`, `OrderAgreement` and `Reconciliation` prove
  properties of all runs; `Counterexamples`, `TableCounterexamples` and `OrderCounterexamples` (built with `Traces`) give
  concrete runs for what is not true.
  `MoneyStore` has the same services in the form the code has them, tables as mutable fields and loops over them;
  each method is proved equal to the engine action it implements, with its answer and its rows written out besides, and
  the whole refund task equal to a run (`Turns`).
- **Finer grain**: `WalletConcurrency` splits wallet calls into lock, read, write, append and commit and interleaves
  them; `RefundRaces` splits the check of a refund request from its insert, `PaymentRaces` the check, gateway call and
  write of payments, cancellations and expiries of one order, `CaptureRaces` those of captures, voids and refunds of one
  payment (both by `GuardedWrites`), `CouponRaces` a coupon application into validation, read and write, and `OtpRaces`
  a wrong guess into its cache operations, each over every interleaving (`Schedules`).
- **Cache protocols**: `Idempotency` (the Idempotency-Key decorator) and `Otp` (email codes and their attempt counter).
- **Outbox**: `Outbox` (overlapping and crashing workers, one database operation at a time), `OutboxCounts` (how often
  a row is delivered, in every run), `OutboxRaces` (which schedules deliver it twice), `OutboxSchedules` (batches without
  overlap and death) and `OutboxWorker` (the worker loop, the publisher and the delivery retries).
- **Arithmetic and text**: `FloatTrip` (an amount through `float` and back), `Signature` (the webhook signature
  header), `Coupons`, `Invoices`.

### What one step is

In the refund task every effect is a step of its own: the read, the lock, the gateway's answer, the atomic block after
it, the exception handler, the dead-letter record, the release, and for each `update_refund_status` outside a
transaction the row save, the ledger entry and the event. In front of each of them the worker can die, and inside the
try and the handler it can raise instead, which also covers an amount that outgrows its column.

`cancel_order`, `expire_order` and the auto-expire sweep first read and decide and later save, order by order, with
anything in between. `create_order`, `create_payment`, `capture_payment`, `void_payment` and `create_refund` are single
steps of the engine, although the code takes no row lock in them. Of what this hides, this is proved apart, for one row each:
over-reservation by refund requests (`RefundRaces`), second collections and order statuses off the table through
payments, cancellations and expiries (`PaymentRaces`), and refund statuses or voids overwritten by a capture
(`CaptureRaces`), each with the exact schedules that allow it. A refund request that dies after its row insert,
and a wallet payment that dies after its debit, are actions of their own. In the idempotency decorator the lookup and
the PROCESSING write are one step. In `Otp` each call is one step; `OtpRaces` interleaves wrong guesses.

A run is *disciplined* when no critical section outlives the 30 second lock and no task takes the lock on a read that
another task has made stale. Theorems that need this say so. Each half is needed: `Counterexamples.LateCommitOverRefunds`
breaks only the first, `Counterexamples.StaleReadOverRefunds` only the second, and both return 1600 of 1000.
`RefundTheorems.OverReservedExactly` needs neither half.

### Where the code does not do what is said of it

- `docs/database_optimization.md:37` says payment rows are locked before state updates. No code locks them
  (`RefundRaces.OverReservedExactly`, `Counterexamples.StaleReadOverRefunds`).
- `docs/api.md:53` says an idempotency key on `POST /orders/` replays the response. Only the payment and refund views
  carry the decorator.
- The refund task never calls `apps/refunds/state_machine.py`. `RefundTheorems.TaskRefinesTable` names the writes that
  leave the table, and `TableCounterexamples` has a run for each; in disciplined runs only one is left
  (`RefundTheorems.DisciplinedRefinesTable`, `Counterexamples.GivingUpSkipsProcessing`).
- The auto-expire sweep, and a cancellation or expiry, save their status over whatever the order has become since they
  read it: an order paid meanwhile goes from PAID to EXPIRED or CANCELLED with a collected payment, and the
  reconciliation report is off by its amount (`OrderAgreement.OrderStepsFollowTable`, `Reconciliation.OneCollectionPerOrder`,
  `Reconciliation.DiscrepancyIsRefunded`, `OrderCounterexamples.ExpiredOverPaid`).
- `create_payment` writes the order without looking at it again: two payments of one order can both be collected, and an
  order cancelled or expired meanwhile becomes PAID or PROCESSING (`PaymentRaces.CollectedTwiceExactly`,
  `PaymentRaces.UnlistedWriteExactly`).
- A capture saves CAPTURED over a refund status written since its check, so the refund no longer shows, and a payment can
  be both captured and voided (`CaptureRaces.RefundHiddenExactly`, `CaptureRaces.CapturedAndVoidedExactly`).
- `update_refund_status` is three autocommits, so a ledger can end FAILED, FAILED, lag behind its row for good, or be
  missing (`RefundLedgers.LedgerGrammar`; `Counterexamples.LedgerEndsFailedTwice`, `LedgerLagsForGood`,
  `RefundWithoutLedger`).
- The status FULLY_REFUNDED counts pending refunds, so it can stay after one of them fails
  (`FullRefunds.FullyRefundedMeansReturned`, `Counterexamples.FullyRefundedWithPartReturned`).
- The gateway is called before the database block, so a rollback and retry, or a death and a sweep, pays again
  (`Payouts.MoneyPaidExactly`; `Counterexamples.GatewayPaysTwice`, `DeathPaysTwice`).
- A critical section of 30 seconds loses its lock (`MutualExclusion.SecondEntersExactly`,
  `Counterexamples.LateReleaseAdmitsTwo`).
- Capture and void write the order status without validating it (`OrderAgreement.OrderStepsFollowTable`,
  `OrderCounterexamples.PaidOverCancelled`, `VoidedOverPaid`).
- A wallet debit commits before the payment row; a process that dies in between leaves a debit nobody refunds
  (`WalletConservation.BalanceExplained`, `Counterexamples.OrphanDebitHappens`).
- `apply_coupon` validates, reads and writes without a lock (`CouponRaces.MiscountedExactly`,
  `CouponRaces.LimitExceededExactly`, `CouponRaces.TwoRequestsInStep`).
- The coupon serializers accept negative values, for which discounts shrink as orders grow (`Coupons.MonotoneExactly`).
- A view that runs 30 seconds can be joined by a second one under the same key (`Idempotency.JoinedExactlyWhenSlow`).
- An outbox row goes to an endpoint twice exactly when two workers both fetch it before anybody marks it and both get,
  alive, past the delivery to that endpoint (`OutboxRaces.DeliveredExactly`, and for every run
  `OutboxCounts.DeliveredTwiceExactly`; `OutboxSchedules.DeathDeliversTwice`, `OverlapDeliversTwice`).
- Concurrent wrong guesses can exceed the limit of three: while earlier ones are not counted yet, after a count was
  lost, or around the deletion of the counter and the code by the first one refused (`OtpRaces.GuessesExceedExactly`;
  `OtpRaces.FourAtOnce`, `CodeOutlivesCounter`, `CodeReadBeforeDeletion`).
- `verify_webhook_signature` lets a ValueError out for a header piece with two `=` and a TypeError for non-ASCII text
  (`Signature.ValueErrorEscapes`, `Signature.TypeErrorEscapes`, `Signature.RaisingHeaders`).

## Model

| member | source | states |
|---|---|---|
| RefundTheorems.NoOverRefund | apps/refunds/services/refund_service.py:49-59 | over every disciplined run of requests, tasks, retries, crashes and sweeps, the successful refunds of a payment and also the promised ones never exceed its amount |
| RefundTheorems.OverReservedExactly | apps/refunds/tasks.py:27-49 | in every run whatsoever, undisciplined ones included, more is promised or returned than the payment at some moment iff at some moment a task writes PROCESSING or SUCCESS over a FAILED refund that no longer fits |
| RefundTheorems.ReservationMoves | apps/refunds/repositories/refund_repository.py:49-59 | from every reachable state the reserved total of a payment moves only when a refund of it is requested, fails or is revived, and then by exactly its amount |
| RefundTheorems.StatusTellsReturned | apps/refunds/tasks.py:81-89 | money was returned iff the payment is PARTIALLY_ or FULLY_REFUNDED; PARTIALLY_REFUNDED means strictly between nothing and everything; everything returned means FULLY_REFUNDED |
| FullRefunds.FullyRefundedMeansReturned | apps/refunds/tasks.py:81-89 | in every state of a disciplined run a FULLY_REFUNDED payment was returned in full iff nothing of it is pending and the last refund to finish succeeded |
| FullRefunds.SettledStatusIsExact | apps/refunds/tasks.py:81-89 | with nothing pending and the last refund to finish successful, FULLY_REFUNDED holds iff everything was returned, in every later state |
| RefundLedgers.LedgerGrammar | apps/refunds/repositories/refund_repository.py:126-169 | a refund ledger reads CREATED, PROCESSING any number of times, then at most one SUCCESS or FAILED, with one amount and the current status last, iff its first entry was inserted, no move of the status misses its entry and no execution logged both a decline and its giving up |
| RefundLedgers.LedgerSurvives | apps/refunds/repositories/refund_repository.py:135-168 | whichever of the three writes fail, the ledger keeps one amount and the order of the statuses, is never ahead of the row, and after a terminal entry has nothing but one FAILED after a FAILED |
| AuditTrail.RefundEntriesNamed | apps/refunds/tasks.py:43-116 | in every run each ledger entry of a refund has its amount and is one of CREATED with REFUND_CREATED, PROCESSING with REFUND_PROCESSING, SUCCESS with REFUND_SUCCESS and FAILED with REFUND_FAILED |
| AuditTrail.PaymentEntriesNamed | apps/payments/repositories/payment_repository.py:118-162 | in every run each ledger entry of a payment has its amount, its event, and the status of its action |
| AuditTrail.OrderEventsNamed | apps/orders/repositories/order_repository.py:79-100 | in every run each order event is of the kind of its status |
| TaskOutcomes.SucceededOutcome | apps/refunds/tasks.py:43-91 | in every reachable state a message worked off undisturbed, the gateway paying, leaves the refund SUCCESS with its two entries and events, the payment FULLY_ or PARTIALLY_REFUNDED by the reserved total, a wallet payment's wallet credited with the amount, the lock gone and everything else as it was |
| TaskOutcomes.DeclinedOutcome | apps/refunds/tasks.py:43-104 | and, the gateway declining, FAILED with GATEWAY_REFUND_FAILED and its two entries and events, and no payment or wallet touched |
| RefundTheorems.DeadLetters | apps/refunds/tasks.py:106-125 | a refund has at most one dead letter, with retry count 3, and has it iff it failed with MAX_RETRIES_EXCEEDED and no worker still owes it or died owing it |
| RefundTheorems.TaskRefinesTable | apps/refunds/state_machine.py:4-25 | in every run an action leaves the declared table iff it saves PROCESSING over a finished refund, a decline over a SUCCESS one, a give-up over a CREATED or SUCCESS one, or commits over a FAILED one; each of these happens (TableCounterexamples) |
| RefundTheorems.BegunIsNotCreated | apps/refunds/tasks.py:43-104 | in every run, however late or stale its tasks, a refund that a task has begun to write about is not CREATED any more |
| RefundTheorems.DisciplinedRefinesTable | apps/refunds/state_machine.py:4-25 | after a disciplined run an action leaves the table iff it gives up on a refund that is still CREATED |
| Refunds.ReservedSplits | apps/refunds/repositories/refund_repository.py:49-59 | the reserved total is exactly returned plus pending |
| Refunds.TotalUpdate | apps/refunds/repositories/refund_repository.py:49-59 | rewriting one refund row moves the Sum of any payment and status list by exactly that row's share |
| RequestVerdicts.RefundVerdict | apps/refunds/services/refund_service.py:25-59 | in every run a refund request is refused by the first guard that fails: not the merchant's payment, a status other than CAPTURED, SETTLED and PARTIALLY_REFUNDED, an amount that is not positive, or more than the payment less its CREATED, PROCESSING and SUCCESS refunds |
| RequestVerdicts.RefundAcceptedExactly | apps/refunds/services/refund_service.py:25-77 | in every run a request that meets all four conditions leaves one CREATED row with its entry and event, and one message; any other leaves the state as it was |
| RequestVerdicts.PartlyRefundedTakesRest | apps/refunds/services/refund_service.py:33-59 | in every reachable state a PARTIALLY_REFUNDED payment accepts any positive amount up to what is not reserved |
| RefundRaces.OverReservedExactly | apps/refunds/services/refund_service.py:49-72 | a schedule of checks, inserts and failures of any number of requests can reserve more than was captured, for some amounts, iff some request's insert lies between another's check and insert and has not failed by then; otherwise no amounts can |
| RefundRaces.TwoRequestsRace | apps/refunds/services/refund_service.py:49-72 | two interleaved requests of 600 reserve 1200 of 1000 |
| RefundRaces.LoneRequest | apps/refunds/services/refund_service.py:43-72 | a request alone gets a row iff its amount is positive and within what was captured |
| GuardedWrites.GuardedWhenNotOvertaken | apps/payments/services/payment_service.py:35-98 | however many requests check a row, work and write it, if no write goes between another's check and write then every check still holds at its write, so the row keeps whatever guarded writes keep |
| PaymentRaces.CollectedTwiceExactly | apps/payments/services/payment_service.py:35-104 | a schedule of checks, gateway calls and writes of any number of payments (captured, authorized or declined), cancellations and expiries can make one order collect twice iff some request's write goes between another's check and write |
| PaymentRaces.UnlistedWriteExactly | apps/orders/state_machine.py:4-38 | for each pair of the statuses PROCESSING, PAID, CANCELLED and EXPIRED that the table does not let follow, the order's history can have the one right after the other under exactly those schedules |
| PaymentRaces.FollowsTableExactly | apps/orders/state_machine.py:4-38 | whatever the requests are, the order's recorded history follows the table, iff nobody is overtaken |
| PaymentRaces.TwoRequestsInStep | apps/payments/services/payment_service.py:35-104 | two requests in step are both charged and both recorded |
| PaymentRaces.LoneRequest | apps/payments/services/payment_service.py:35-104 | a payment, cancellation or expiry alone leaves a PENDING order as its service does |
| CaptureRaces.RefundHiddenExactly | apps/payments/services/payment_service.py:130-146 | a schedule of checks, gateway calls and saves of captures, voids and refunds of a captured payment can leave it without a refund status although money was returned iff some save goes between another's check and save |
| CaptureRaces.CapturedAndVoidedExactly | apps/payments/services/payment_service.py:130-174 | and an authorized payment can be both captured and voided iff the same |
| CaptureRaces.LoneRequest | apps/payments/services/payment_service.py:120-177 | a capture, void or refund alone leaves the payment as its service does |
| MutualExclusion.AtMostOneInside | apps/refunds/tasks.py:34-41 | while critical sections stay under the lock's 30 seconds, at most one task per payment is inside |
| MutualExclusion.ReleaseSparesOthers | apps/refunds/tasks.py:127-129 | the unconditional delete of one task never removes the live lock of another, and that lock's expiry is still its owner's |
| MutualExclusion.SecondEntersExactly | apps/refunds/tasks.py:34-35 | beside a task that is inside, another task of the payment gets inside iff thirty seconds have passed since the first took the lock |
| RetryTermination.ExecutionsBounded | apps/refunds/tasks.py:126-143 | in every run, with crashes, sweeps and redeliveries, a refund is executed at most four times per dispatch |
| RetryTermination.RetriesEnd | apps/refunds/tasks.py:37-143 | in every run a refund is unfinished with no execution to come iff, since its last dispatch, its request died before the dispatch, a worker died with its only execution, that execution's handler raised, its last retry found the payment locked, or its decline was written over |
| RetryTermination.FinishedUnlessStuck | apps/refunds/tasks.py:106-143 | in every run a refund not left stuck in one of those ways since its last dispatch is SUCCESS or FAILED once its executions are over |
| WalletConservation.BalanceExplained | apps/wallet/services/wallet_service.py:47-76 | a balance is manual credits minus manual debits minus, over the wallet's collected payments, amount minus successful refunds, minus exactly what requests debited that died before their payment row; the first three explain it iff no request died there |
| WalletConservation.OrphansAreDeaths | apps/payments/services/payment_service.py:60-86 | in every run the debits of a wallet without a payment row add up to what such deaths debited, and are there iff one happened |
| WalletConservation.RefundCreditedOnce | apps/refunds/tasks.py:60-89 | through rollback and retry, a successful refund of a wallet payment has exactly one credit of its amount in that wallet, every other refund none anywhere |
| WalletConservation.PaymentDebitedOnce | apps/payments/adapters/wallet_adapter.py:30-43 | a collected wallet payment has exactly one debit of its amount in its wallet, every other payment none |
| WalletConservation.LedgersAreChains | apps/wallet/services/wallet_service.py:58-74 | in every run each wallet ledger is a chain from zero to the balance and no balance is negative |
| RequestVerdicts.WalletMoved | apps/wallet/services/wallet_service.py:33-127 | in every run a credit, or a covered debit, of a positive amount moves an active wallet's balance by it and appends one entry; any other request changes nothing |
| RequestVerdicts.WalletStatusSet | apps/wallet/services/wallet_service.py:129-141 | in every run a freeze or unfreeze sets that wallet's status alone |
| RequestVerdicts.WalletOpened | apps/wallet/services/wallet_service.py:20-31 | in every run a new wallet is empty and active |
| OrderAgreement.PaidOrderIsCollected | apps/payments/services/payment_service.py:76-117 | in every run a PAID order has a collected, possibly refunded, payment of exactly its amount |
| RequestVerdicts.PaymentVerdict | apps/payments/services/payment_service.py:35-50 | in every run a payment request is refused for an order that is not the merchant's, is not PENDING, PROCESSING or DRAFT, or has another amount, in this order, and made otherwise |
| RequestVerdicts.PaymentPerGateway | apps/payments/services/payment_service.py:76-117 | in every reachable state DUMMY and COD give CAPTURED and PAID, STRIPE AUTHORIZED and PROCESSING, RAZORPAY CREATED and an unchanged order, and WALLET CAPTURED, PAID and a balance less the amount if the named wallet exists, is active and covers it, and otherwise FAILED with order and wallets unchanged |
| RequestVerdicts.StatusTellsGateway | apps/payments/adapters/stripe_adapter.py:20-30 | in every run an AUTHORIZED or VOIDED payment is STRIPE's, a CREATED one RAZORPAY's and a FAILED one WALLET's |
| RequestVerdicts.CaptureVerdict | apps/payments/services/payment_service.py:120-150 | in every run a capture succeeds iff it is the merchant's payment, it is CREATED, AUTHORIZED or CAPTURED, and the gateway captures it |
| RequestVerdicts.VoidVerdict | apps/payments/services/payment_service.py:155-177 | in every run a void succeeds iff it is the merchant's payment and it is AUTHORIZED or VOIDED |
| RequestVerdicts.MoveVerdict | apps/orders/state_machine.py:4-38 | in every run a cancellation is decided unless the order is PAID, EXPIRED or REFUNDED, and an expiry only for a PENDING or EXPIRED one |
| RequestVerdicts.SaveWrites | apps/orders/repositories/order_repository.py:79-100 | in every run the save of such a decision writes its status and event over whatever the order has become, and nothing else |
| RequestVerdicts.OrderMade | apps/orders/services/order_service.py:22-57 | in every run a positive amount makes one PENDING order with its event, expiring as given or in 1800 seconds, and any other amount nothing |
| OrderExpiry.SweepDecides | apps/orders/tasks.py:16-21 | in every run a sweep decides to expire exactly the PENDING orders whose expiry is not after now, each once |
| OrderExpiry.ExpiredInTime | apps/orders/tasks.py:16-43 | in every run an EXPIRED order that nobody asked to expire has reached its expiry time |
| OrderExpiry.ExpiryOfOrder | apps/orders/services/order_service.py:38-40 | in every run an order's expiry is what its creator gave, or 1800 seconds after its creation |
| OrderExpiry.NotBeforeThirtyMinutes | apps/orders/tasks.py:16-43 | an order created without an expiry is not EXPIRED before 1800 seconds have passed, unless somebody asks for it |
| OrderAgreement.OrderStepsFollowTable | apps/orders/state_machine.py:4-38 | in every run an action leaves the declared table iff it saves CANCELLED over an order PAID or EXPIRED since the check, saves EXPIRED over one PROCESSING, PAID or CANCELLED since the read, captures a payment of a CANCELLED or EXPIRED order, or voids one of a PAID or EXPIRED order; each of these happens (OrderCounterexamples) |
| OrderAgreement.HistoryFollowsTable | apps/orders/state_machine.py:4-38 | in every run an order's whole recorded history follows the table iff none of those writes ever hit it |
| Reconciliation.OneCollectionPerOrder | apps/payments/services/payment_service.py:35-50 | with immediate-capture gateways an order collects at most one payment, is PAID iff it has one that no late save hid, and its history follows the table iff no save of it ever came late |
| Reconciliation.DiscrepancyIsRefunded | apps/analytics/services/__init__.py:453-466 | in such runs the reported discrepancy is the total amount of payments with any successful refund, less the amounts of orders whose payment a late save hid |
| Reconciliation.ReconciledMeansUnrefunded | apps/analytics/services/__init__.py:466-474 | `is_reconciled` holds iff those two totals are equal: for a merchant without hidden orders iff no refund succeeded, and for one without successful refunds iff no order is hidden |
| Payouts.GatewayPayments | apps/refunds/tasks.py:53-89 | in every run the gateway has paid a refund once per committed block, once per rolled-back block, once per worker that died between the two, and once if a block is still to come |
| Payouts.RefundPaidOnce | apps/refunds/tasks.py:53-89 | in a disciplined run the gateway has paid a refund once if it is SUCCESS, and once more for each rolled-back block, each worker that died before the block, and the block still to come |
| Payouts.MoneyPaidExactly | apps/refunds/tasks.py:53-89 | per payment the money the gateway paid is what successful refunds returned plus lost plus waiting payments, and it never exceeds the payment without a lost one |
| Counterexamples.FullyRefundedWithPartReturned | apps/refunds/tasks.py:82-88 | a disciplined run that ends FULLY_REFUNDED with 400 of 1000 returned and nothing pending |
| Counterexamples.StaleReadOverRefunds | apps/refunds/tasks.py:22-35 | without the discipline on reads, a run that returns 1600 of 1000 |
| Counterexamples.LateReleaseAdmitsTwo | apps/refunds/tasks.py:34-35 | thirty seconds after a task took the lock a second one is inside with it |
| Counterexamples.LateCommitOverRefunds | apps/refunds/tasks.py:53-89 | without stale reads but with a section of thirty seconds, a run that returns 1600 of 1000 |
| Counterexamples.LedgerEndsFailedTwice | apps/refunds/tasks.py:95-121 | an event insert that raises after a decline on the fourth try leaves a ledger ending FAILED, FAILED |
| Counterexamples.LedgerLagsForGood | apps/refunds/tasks.py:110-116 | an entry insert that raises after the give-up save leaves a FAILED refund with a ledger of CREATED and no dead letter |
| Counterexamples.RefundWithoutLedger | apps/refunds/repositories/refund_repository.py:73-93 | a request that dies after its row insert leaves a refund without a ledger and without a task |
| Counterexamples.GivingUpSkipsProcessing | apps/refunds/tasks.py:108-116 | four tries whose PROCESSING save raises take a refund from CREATED to FAILED, which the table forbids |
| Counterexamples.GatewayPaysTwice | apps/refunds/tasks.py:53-60 | a rollback and retry makes the gateway pay one SUCCESS refund twice, 1200 for a payment of 1000 |
| Counterexamples.DeathPaysTwice | apps/refunds/tasks.py:137-142 | with no block ever raising, a worker that dies after the gateway paid and a sweep thirty seconds later do the same |
| Counterexamples.OrphanDebitHappens | apps/payments/services/payment_service.py:60-86 | a wallet of 1000 debited for a payment whose row is never written has balance 0, 1000 short of what explains it |
| TableCounterexamples.ProcessingOverFinished | apps/refunds/tasks.py:27-49 | a second execution on an old read writes PROCESSING over a SUCCESS, or a FAILED, refund |
| TableCounterexamples.GivenUpOverSuccess | apps/refunds/tasks.py:108-116 | it gives up on a refund that is already SUCCESS |
| TableCounterexamples.GivenUpOverCreated | apps/refunds/tasks.py:108-116 | a task gives up on a refund that is still CREATED |
| TableCounterexamples.DeclinedOverSuccess | apps/refunds/tasks.py:93-103 | of two tasks inside, one saves its decline over the other's SUCCESS |
| TableCounterexamples.CommittedOverFailed | apps/refunds/tasks.py:59-70 | of two tasks inside, one commits SUCCESS over the other's decline |
| OrderCounterexamples.ExpiredOverPaid | apps/orders/tasks.py:17-26 | an order paid between the scan and its save is EXPIRED with a collected payment |
| OrderCounterexamples.ExpiredOverProcessing | apps/orders/tasks.py:17-26 | an order authorized between the scan and its save goes from PROCESSING to EXPIRED |
| OrderCounterexamples.ExpiredOverCancelled | apps/orders/tasks.py:17-26 | an order cancelled between the scan and its save goes from CANCELLED to EXPIRED |
| OrderCounterexamples.CancelledOverPaid | apps/orders/services/order_service.py:70-75 | an order paid between the check and the save of its cancellation goes from PAID to CANCELLED |
| OrderCounterexamples.CancelledOverExpired | apps/orders/services/order_service.py:70-75 | an order expired between them goes from EXPIRED to CANCELLED |
| OrderCounterexamples.PaidOverCancelled | apps/payments/services/payment_service.py:147-150 | a capture turns a CANCELLED order PAID |
| OrderCounterexamples.PaidOverExpired | apps/payments/services/payment_service.py:147-150 | a capture turns an EXPIRED order PAID |
| OrderCounterexamples.VoidedOverPaid | apps/payments/services/payment_service.py:167-177 | voiding one of two payments turns a PAID order CANCELLED |
| OrderCounterexamples.VoidedOverExpired | apps/payments/services/payment_service.py:167-177 | a void turns an EXPIRED order CANCELLED |
| Turns.TurnIsRun | apps/refunds/tasks.py:22-129 | the steps of one task in turn, however many, are a run of the transition system |
| MoneyStore.Database.ProcessRefundTask | apps/refunds/tasks.py:16-129 | from a queued message to the end of `finally`, whichever statements raise, the database becomes what the engine's steps of this task in turn make it, and the returned value agrees with the refund's row; exactly a missing, SUCCESS or FAILED refund is skipped, with nothing written |
| MoneyStore.Database.RecordSuccess | apps/refunds/tasks.py:60-89 | on commit exactly the refund row (SUCCESS with a REFUND_SUCCESS entry and an event), the payment status and, for a wallet payment, one credit, all written out; otherwise nothing; committed iff nothing raises and the wallet takes the credit |
| MoneyStore.Database.ReconcileRefunds | apps/refunds/tasks.py:133-147 | one fresh message for each PROCESSING refund and for no other, in order, and the count of them |
| MoneyStore.Database.CreateRefund | apps/refunds/services/refund_service.py:22-77 | the verdict of the four guards with the very error, written out, and on success exactly one CREATED row with its entry and event, and one message |
| MoneyStore.Database.TotalRefunded | apps/refunds/repositories/refund_repository.py:49-59 | the loop over the rows computes the reserved total |
| MoneyStore.Database.UpdateRefundStatus | apps/refunds/repositories/refund_repository.py:126-169 | the row, then its ledger entry (REFUND_PROCESSING or REFUND_FAILED), then its event, written out, with as many of the three as precede the exception |
| MoneyStore.Database.CreatePayment | apps/payments/services/payment_service.py:30-117 | the verdict of the three guards with the very error, and on success, written out per gateway, the payment row with its entry, event and failure code, the wallet debit and the order's new status and event |
| MoneyStore.Database.CapturePayment | apps/payments/services/payment_service.py:120-152 | the very error of the first failing check, or payment CAPTURED with its ledger entry and event and order PAID |
| MoneyStore.Database.VoidPayment | apps/payments/services/payment_service.py:155-179 | the very error of the first failing check, or payment VOIDED with its ledger entry and event and order CANCELLED whatever the gateway says |
| MoneyStore.Database.CreateOrder | apps/orders/services/order_service.py:22-57 | the first of the two errors, or one PENDING order with its event, expiring as asked or in 1800 seconds |
| MoneyStore.Database.AutoExpirePendingOrders | apps/orders/tasks.py:16-43 | the scan and then its saves, one by one; with nothing in between exactly the orders that are PENDING with an expiry not after now become EXPIRED with one more event, and the count is the number of them |
| MoneyStore.Database.CancelOrder | apps/orders/services/order_service.py:70-75 | with nothing between check and save, the very error, or the order CANCELLED with its event |
| MoneyStore.Database.ExpireOrder | apps/orders/services/order_service.py:78-83 | the same with EXPIRED |
| MoneyStore.Database.CreditWallet | apps/wallet/services/wallet_service.py:33-76 | the first error that applies, otherwise balance and ledger move by the amount |
| MoneyStore.Database.DebitWallet | apps/wallet/services/wallet_service.py:79-127 | the first error that applies, otherwise balance and ledger move by the amount |
| MoneyStore.Database.FreezeWallet | apps/wallet/services/wallet_service.py:129-134 | the not-found error, or that wallet FROZEN and nothing else changed |
| MoneyStore.Database.UnfreezeWallet | apps/wallet/services/wallet_service.py:136-141 | the same with ACTIVE |
| Wallets.RowKeepsChain | apps/wallet/services/wallet_service.py:58-74 | a credit or debit keeps the ledger a chain ending in a non-negative balance |
| WalletConcurrency.Serialisable | apps/wallet/repositories/wallet_repository.py:34-48 | every interleaving of lock, read, write, append and commit of any number of credits, debits, freezes and unfreezes gives the row and each outcome of serving them one at a time in commit order |
| WalletConcurrency.ServedAlone | apps/wallet/services/wallet_service.py:33-141 | what serving one call means: the first error that applies, or balance and ledger moved by the amount, or the status set |
| WalletConcurrency.LedgerStaysChained | apps/wallet/services/wallet_service.py:47-76 | under every interleaving the committed ledger is a chain ending in a non-negative balance |
| WalletConcurrency.NothingCommitsWhileFrozen | apps/wallet/services/wallet_service.py:129-141 | between a freeze and the next unfreeze every credit and debit raises and leaves the row as it was |
| Idempotency.NeverOverlap | apps/common/decorators/idempotency.py:53-61 | if views finish within 30 seconds, two executions under one key never run at once |
| Idempotency.ReplayedWithinTimeout | apps/common/decorators/idempotency.py:33-51 | for `timeout` seconds after a response below 500, every request of its key is answered without running: the stored body and status for the same fingerprint, 422 for any other |
| Idempotency.ReplayedWasReturned | apps/common/decorators/idempotency.py:47-51 | what is replayed was returned earlier by a view to the same fingerprint, within the timeout |
| Idempotency.JoinedExactlyWhenSlow | apps/common/decorators/idempotency.py:33-58 | after any prompt run and any wait, a request for the key of a running view starts a second execution iff thirty seconds have passed since the view started, and is answered 409 until then |
| Idempotency.SlowViewRunsTwice | apps/common/decorators/idempotency.py:54-58 | the run of two requests thirty seconds apart ends with both views running under one key |
| Idempotency.FailureNeverReplayed | apps/common/decorators/idempotency.py:63-78 | over all runs, slow views included, no response of status 500 or more is ever replayed |
| Idempotency.FailureIsRetried | apps/common/decorators/idempotency.py:63-78 | after such a response the next request for its key, whatever its fingerprint and however soon, runs a view |
| Idempotency.ThrownBlocksThirtySeconds | apps/common/decorators/idempotency.py:53-61 | after a view that threw, its key is answered 409 until thirty seconds after the view started and then runs another one |
| Idempotency.Decorator.Before | apps/common/decorators/idempotency.py:30-58 | the answer the cache gives, or the key marked PROCESSING for 30 seconds |
| Idempotency.Decorator.After | apps/common/decorators/idempotency.py:63-78 | a response below 500 stored for `timeout` seconds, any other removes the key |
| Otp.ThreeWrongGuesses | apps/accounts/services/auth_service.py:111-139 | over all timed runs of issue, resend and verify, one call at a time, an issued code is compared with at most three wrong guesses |
| Otp.BoundNeedsLongCounter | apps/common/services/redis_service.py:15-48 | for any two times to live, the bound of three holds over all runs iff the counter lives at least as long as the code |
| Otp.GuessVerdict | apps/accounts/services/auth_service.py:118-139 | in every run a guess verifies the account iff fewer than three wrong guesses are counted and it is the live code; then code and counter are gone, at three they are gone too, and a wrong guess counts one more for 900 seconds |
| Otp.CodeLivesFiveMinutes | apps/common/services/redis_service.py:15-20 | in every run a new code is the live one for 300 seconds and leaves the counter alone |
| OtpRaces.GuessesExceedExactly | apps/accounts/services/auth_service.py:118-130 | for any limit and any schedule of single cache operations, more wrong guesses than the limit can be compared, for some of the requests being guesses at this code, iff the limit is not zero and some request reads the counter when at least the limit of others have, and one of these has not set it yet, or one set it between another's second read and set, or it deletes the counter before a further request reads it that had read the code before it deletes that, too |
| OtpRaces.FourAtOnce | apps/common/services/redis_service.py:41-48 | four requests that all check first are all compared, against a limit of three |
| OtpRaces.CodeOutlivesCounter | apps/common/services/redis_service.py:30-38 | after three counted guesses a fourth is refused and deletes the counter; a fifth reads the code, which is still there, and no counter, and is compared |
| OtpRaces.CodeReadBeforeDeletion | apps/accounts/services/auth_service.py:118-119 | a fifth reads the code before the fourth deletes both keys and the counter after, and is compared |
| OtpRaces.RefilledCounterRefuses | apps/accounts/services/auth_service.py:121-131 | one schedule exceeds the limit or not depending on which requests are guesses here: three more guesses without a code fill the counter again |
| Otp.AuthService.VerifyOtp | apps/accounts/services/auth_service.py:111-139 | verdict and cache after a guess, on every branch, an unknown account included |
| Otp.AuthService.ResendOtp | apps/accounts/services/auth_service.py:142-157 | a new code replaces the old one for 300 seconds and the counter stays; an unknown address is answered alike and nothing changes; a verified one raises |
| Otp.AuthService.IncrementAttempts | apps/common/services/redis_service.py:41-48 | the live counter plus one, alive again for 900 seconds |
| Outbox.OneEventPerOutboxRow | apps/webhooks/tasks.py:36-46 | under crashes and overlap an outbox row has at most one WebhookEvent, with equal fields, and every delivery belongs to one |
| Outbox.ProcessedIsPrefix | apps/webhooks/tasks.py:30-34 | processed rows always form a prefix in creation order |
| Outbox.ProcessedWasDelivered | apps/webhooks/tasks.py:49-74 | a processed row was fanned out by a pass that made exactly one delivery for each endpoint active and subscribed when it read them, and no other |
| OutboxCounts.DeliveriesArePasses | apps/webhooks/tasks.py:49-69 | in every run, with deaths and overlap, an endpoint has as many deliveries of a row as passes over the row got past it |
| OutboxCounts.DeliveredTwiceExactly | apps/webhooks/tasks.py:49-74 | in every run an endpoint has two deliveries of a row iff two passes over it both got past that delivery |
| OutboxRaces.DeliveredExactly | apps/webhooks/tasks.py:30-74 | for any schedule of workers over one row and any number of endpoints, an endpoint gets the row iff some worker fetches it before anybody marks it and gets past that delivery, and more than once iff two workers do |
| OutboxRaces.CanDeliverTwiceExactly | apps/webhooks/tasks.py:30-74 | for some number of endpoints a schedule delivers twice iff two workers live to make their first delivery |
| OutboxRaces.RaceIsRun | apps/webhooks/tasks.py:30-74 | each such schedule is a run of the outbox as modelled in full |
| OutboxSchedules.OnePassPerRow | apps/webhooks/tasks.py:30-76 | in every run in which no worker dies and none fetches while another is unfinished, no row is gone over twice |
| OutboxSchedules.ExactlyOnce | apps/webhooks/tasks.py:30-76 | in every such run the deliveries of a processed row are exactly the endpoints active and subscribed when they were read, once each (sufficient; OutboxRaces.DeliveredExactly is exact) |
| OutboxSchedules.DeathDeliversTwice | apps/webhooks/tasks.py:59-74 | a worker that dies between a delivery and the mark leaves the row to the next worker, which delivers it again |
| OutboxSchedules.OverlapDeliversTwice | apps/webhooks/tasks.py:30-34 | two workers that fetch before either marks the row deliver it twice |
| OutboxWorker.RunsDrain | apps/webhooks/tasks.py:30-76 | k crash-free runs over n pending rows leave max(0, n - 100k) |
| OutboxWorker.Worker.ProcessOutboxEvents | apps/webhooks/tasks.py:25-76 | marks exactly the fetched rows, gives each its event and exactly one more delivery per subscribed endpoint, and nothing to any other row |
| OutboxWorker.Worker.ProcessRow | apps/webhooks/tasks.py:34-74 | the event, the deliveries and the mark of one row |
| OutboxWorker.Worker.GetOrCreateEvent | apps/webhooks/tasks.py:36-46 | an existing event is kept, a missing one is appended with the row's fields |
| OutboxWorker.Worker.MatchingEndpoints | apps/webhooks/tasks.py:49-57 | the active endpoints of the merchant that list the type or `*` |
| OutboxWorker.Worker.FanOut | apps/webhooks/tasks.py:59-69 | one delivery per matching endpoint for this row, none for others |
| OutboxWorker.DeliveryEnds | apps/webhooks/tasks.py:141-176 | a delivery is tried until the first success and at most six times; it ends SUCCESS with that attempt's number iff one of the six succeeds, and attempts come 0, 60, 360, 1260, 3060 and 6660 seconds of waiting after the first |
| OutboxWorker.DeliveryTask.Deliver | apps/webhooks/tasks.py:141-176 | the saved delivery, event and endpoint columns, and the countdown of the retry: 60, 300, 900, 1800 or 3600 seconds, none after a success or the sixth attempt |
| Signature.HeaderRoundTrip | apps/webhooks/security.py:22-46 | parsing a generated header gives back its timestamp, for every integer, and its signature |
| Signature.OwnHeaderAccepted | apps/webhooks/security.py:35-62 | a generated header is accepted exactly while the timestamp is within the tolerance, and never raises |
| Signature.VerifyMeans | apps/webhooks/security.py:26-62 | verification answers true iff the header parses, its integer timestamp is within tolerance and its last `v1` is the MAC of that timestamp and this payload |
| Signature.SubstitutionNeedsCollision | apps/webhooks/security.py:17-20 | a header accepted for two payloads exhibits two different texts with one MAC |
| Signature.SignedTextInjective | apps/webhooks/security.py:17 | the signed text determines timestamp and payload |
| Signature.ValueErrorEscapes | apps/webhooks/security.py:38 | verification raises ValueError iff some comma-separated piece of a non-empty header has more than one `=` |
| Signature.TypeErrorEscapes | apps/webhooks/security.py:62 | it raises TypeError iff the header parses, the timestamp is within tolerance and the received signature has a character past ASCII |
| Signature.RaisingHeaders | apps/webhooks/security.py:38-62 | a header for each of the two exceptions |
| Signature.IntRoundTrip | apps/webhooks/security.py:45-46 | `int` of a printed integer is that integer |
| Signature.IntReads | apps/webhooks/security.py:45-46 | `int` takes white space, a sign and single underscores between digits, and refuses empty, doubled, leading and trailing ones |
| Signature.LastPairWins | apps/webhooks/security.py:38-40 | pieces without `=` are skipped, and of two pairs with one key the later one counts |
| Signature.SplitJoin | apps/webhooks/security.py:38 | splitting loses nothing and leaves no separator inside a part |
| FloatTrip.AmountSurvives | apps/payments/adapters/wallet_adapter.py:31-33 | for every amount of at most twelve digits, any nearest double and any shortest printing of it, the printed decimal is the amount, so the wallet is debited the payment amount |
| FloatTrip.AmountPrintsItself | apps/payments/services/payment_service.py:62 | such a double and such a printing exist: the amount's own digits without trailing zeros |
| FloatTrip.RoundedIsNearest | apps/payments/services/payment_service.py:62 | the computed rounding is the nearest of all finite doubles, ties to even |
| FloatTrip.ShortDecimalsAgree | apps/payments/adapters/wallet_adapter.py:33 | two decimals of at most twelve digits that round to one double are equal |
| Coupons.DiscountInRange | apps/analytics/services/coupon_service.py:93-107 | the discount never exceeds the order, and is between zero and the order iff order, fixed value and cap are not negative and the percentage does not round below zero |
| Coupons.MonotoneExactly | apps/analytics/services/coupon_service.py:93-107 | the discount grows with the order, over all orders or the non-negative ones, iff the coupon is not a negative percentage; what is left to pay grows over all orders iff it is not a percentage above 100, and always over the non-negative ones |
| Coupons.DiscountIsLeast | apps/analytics/services/coupon_service.py:95-105 | a percentage discount is the least of share, order and a cap that is not zero |
| Coupons.ShareIsNearest | apps/analytics/services/coupon_service.py:95-97 | the share is within half a cent of exact, exact halves going away from zero |
| Coupons.ProductFits | apps/analytics/services/coupon_service.py:95 | the product of two twelve-digit operands has at most 24 digits, so the 28-digit context rounds nothing |
| Coupons.UsesAreCounted | apps/analytics/services/coupon_service.py:79-90 | applied one after another, the uses of a coupon are exactly its successes and stop at its limit, and nothing else of it changes |
| Coupons.AcceptedExactly | apps/analytics/services/coupon_service.py:39-76 | an order is accepted iff the coupon exists, is active, has uses left, is of the merchant if one is named, and asks no higher minimum; discount and final amount add up to the order |
| CouponRaces.MiscountedExactly | apps/analytics/services/coupon_service.py:83-87 | a schedule of validations, reads and writes can lose a use, for some coupon and requests, iff some write goes between another request's read and write |
| CouponRaces.LimitExceededExactly | apps/analytics/services/coupon_service.py:58-87 | a schedule can grant more uses than the coupon has, for some coupon and requests, iff some write goes between another request's validation and write |
| CouponRaces.TwoRequestsInStep | apps/analytics/services/coupon_service.py:83-87 | two requests in step on the last use are both granted and counted once |
| CouponRaces.LoneRequest | apps/analytics/services/coupon_service.py:58-87 | a request alone takes one use iff it is eligible and one is left |
| Coupons.CouponService.CalculateDiscount | apps/analytics/services/coupon_service.py:93-107 | the branches compute the discount the lemmas speak of |
| Coupons.CouponService.ValidateCoupon | apps/analytics/services/coupon_service.py:39-76 | the five errors in order, otherwise discount and final amount |
| Coupons.CouponService.ApplyCoupon | apps/analytics/services/coupon_service.py:79-90 | the answer of validation; on success one more use of that coupon, else nothing |
| Invoices.TotalIncreases | apps/analytics/services/invoice_service.py:36-39 | a larger subtotal has a strictly larger total and no smaller tax |
| Invoices.TiesExactly | apps/analytics/services/invoice_service.py:38 | the exact tax lies halfway between cents iff the subtotal is 25 modulo 50 cents |
| Invoices.TaxIsNearest | apps/analytics/services/invoice_service.py:38 | the tax is within half a cent of 18%, off by a whole half iff on a tie, and then even |
| Invoices.TotalIsNearest | apps/analytics/services/invoice_service.py:36-39 | the total is within half a cent of 118% |
| Invoices.SplitInvoices | apps/analytics/services/invoice_service.py:36-39 | the taxes of k orders differ from the tax on their sum by at most (k + 1) / 2 cents |
| Invoices.TotalInjective | apps/analytics/services/invoice_service.py:39 | the total determines the subtotal |


## Left out

- MoneyStore.Database.CreatePayment: the check, the gateway call and the insert are one step here, and are interleaved in PaymentRaces; the text of the failure reason is not kept.
- MoneyStore.Database.CapturePayment: the check and the writes are one step and the gateway's answer is an argument; the same holds for VoidPayment; interleaved ones are in CaptureRaces.
- OrderAgreement.OrderStepsFollowTable: create_payment is one step of the engine, and so it is in HistoryFollowsTable; what it writes over an order that moved since its check is in PaymentRaces.
- MoneyStore.Database.AutoExpirePendingOrders: states the sweep with nothing in between; what comes in between is in the engine, where scan and saves are separate.
- MoneyStore.Database.CreateOrder: an order row and its event are written together here and in the other order updates, although outside capture, void and payment they are two autocommits; whether a named customer exists is an argument.
- Reconciliation.OneCollectionPerOrder: rests on create_payment being one step; interleaved payments, cancellations and expiries of one order are in PaymentRaces.
- PaymentRaces.CollectedTwiceExactly: one PENDING order; captures and voids, which write its status unchecked, do not come in between. A cancellation or expiry has an idle second move.
- CaptureRaces.RefundHiddenExactly: one payment; what a capture or void writes to the order, and how much the refunds may return, are not looked at.
- RefundTheorems.DeadLetters: a worker that dies after writing FAILED and before writing the dead letter leaves none; the statement says so through the tasks that owe one.
- RefundRaces.OverReservedExactly: one payment whose own status does not change meanwhile; a refund that succeeds or stays pending simply makes no third move.
- CouponRaces.MiscountedExactly: one coupon whose other columns do not change meanwhile; the checks that do not look at its uses are a fixed yes or no per request.
- Coupons.UsesAreCounted: requests one after another; interleaved ones are in CouponRaces.
- Otp.ThreeWrongGuesses: one address, with each call one step; interleaved wrong guesses are in OtpRaces.
- OtpRaces.GuessesExceedExactly: all guesses wrong, within the life of one code and a counter that starts at zero.
- OutboxRaces.DeliveredExactly: one row whose endpoints do not change; other rows and changing endpoints are in OutboxCounts, which counts passes instead.
- Otp.AuthService.VerifyOtp: an empty guess against an empty stored code is not distinguished because codes have six digits.
- Outbox.ProcessedIsPrefix: rows are numbered in `created_at` order and become visible in that order.
- OutboxWorker.Worker.Publish: the dispatch of the worker task is left out.
- OutboxWorker.DeliveryEnds: several deliveries of one event overwrite each other's event status; the HTTP exchange is a yes-or-no answer.
- Signature.VerifyMeans: digits and white space in `int` are the ASCII ones, where Python accepts more, and integers beyond Python's 4300-digit printing limit are not treated specially.
- Wallet ledger references are kept as provenance (manual, payment, refund) instead of text, so a manual entry that spells a refund id stays manual.
- Merchant profiles and customers are numbers; lookups by identifier string, currencies, metadata, descriptions and `updated_by` are not modelled.
- Event payloads, and notifications, are not modelled.
- SETTLED and CLOSED statuses exist in the tables but no code writes them; DRAFT orders cannot be created through the API; deletion is not modelled.
- Requests without an Idempotency-Key pass straight through the decorator and are not modelled.
- Redis, Celery and the broker are reduced to atomic cache operations, message redelivery and the retry counter; cache failures that the settings ignore are not modelled.
- Views, serializers, authentication, PDF and CSV output, analytics dashboards and email are not modelled.
