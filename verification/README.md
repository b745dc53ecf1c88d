# ShopFlow order engine: a verified model

ShopFlow processes orders with a handful of small state machines that meet only in database
rows, compare-and-set updates, row locks and a message broker. This project models those state
machines and the algorithms around them, and proves what holds in every interleaving, after any
crash, lost answer or failed call. Where a promise of the code turns out not to hold, the model
keeps the code as it is, and lemmas give inputs that break the promise and the condition on the
state or the request that decides whether it is kept ("What turned out not to hold" lists both).

## How the model is built

Every concurrent component has the same three layers.

* A **world** of rows, a **program counter** per process and a deterministic `Step`. Each
  database transaction, each call to another component, each handler run is one step; everything
  that the code does not decide (who moves next, whether a call is delivered, loses its answer or
  is never made, fresh identifiers, jitter, the clock) is part of the action. `Run` folds a
  sequence of actions, so a lemma over all `acts` is a statement about every interleaving of any
  number of processes, and one over `acts + more` about everything that may happen later.
* An **invariant**, kept by every step because each process keeps it and disturbs the others only
  in ways they can bear, and the **theorems** that follow from it.
* A **class** whose fields are the rows and whose methods are the Go methods, statement for
  statement. `Others` lets any number of other processes act between two accesses. `Valid()` says
  that the fields are those of the run recorded so far, and every method extends that run, so the
  theorems speak about the classes. A crash is a process that makes no further step, or a `Crash`
  action.

| module | component |
|---|---|
| `Common`, `Statuses`, `Text` | shared vocabulary; int64 wrap-around; string order, sorting and trimming |
| `SagaFsm`, `SagaSystem`, `SagaSafety`, `SagaTheorems`, `SagaCompensation`, `SagaLeftovers`, `SagaAlone`, `SagaDriver`, `SagaCoordinator` | saga drivers, watchdog passes, participants and outsiders around one saga; when a compensation can complete, what a failure leaves behind, what becomes of stock and money that were never recorded, and how a driver and a pass end when nothing gets in their way |
| `InventoryDb`, `InventoryService`, `InventoryOutcomes`, `InventoryLocks`, `InventoryVerdicts` | stock tables as single-step operations, the service's loops and rollbacks, what each operation does on the rows, row-locked transactions interleaved, and what they answer |
| `OutboxRuns`, `OutboxSafety`, `OutboxTimely`, `OutboxFinality`, `OutboxAttempts`, `OutboxLeases`, `OutboxPoller`, `Backoff` | outbox leases, publishing, marking, dead letters, retry delays; when a status is final, how often a message is published, which rows are leased, and that each is published in the end |
| `InboxRuns`, `InboxPoison`, `InboxProcessor` | deduplicating consumers, with the in-memory and with the Postgres repository; what becomes of poison messages |
| `Pipeline` | outbox, broker and inbox composed |
| `OrderIdempotency`, `OrderFsm`, `OrderRuns`, `OrderStory`, `OrderPricing`, `OrderRefusals` | order creation under a key, the order's status and what its outbox rows tell of it, what an order is charged, and which orders are refused |
| `PaymentRuns`, `PaymentVerdicts` | payments and refunds; who is charged, and for what |
| `Cursor`, `Catalog`, `Reindex` | keyset cursors, pages, re-indexing during inserts |
| `TokenBucket` | the rate limiter's script |
| `Money`, `Totals`, `CartRuns`, `CartStory` | checked arithmetic, totals loops, optimistic carts and what is in them |

## What turned out not to hold

* A FAILED saga need not have undone anything: a watchdog pass that acts on a stale scan fails a
  saga from any state, even out of COMPENSATING (`SagaTheorems.StaleScanFailsACompensatingSaga`,
  `SagaTheorems.FailedSagaMayHaveSoldTheGoods`). It leaves nothing recorded behind exactly if the
  state that it re-read is STARTED, PENDING or RESERVING_STOCK
  (`SagaCompensation.FailureRecordsNothingIff`, `SagaCompensation.FailingIsCleanIff`); the order is
  cancelled for good exactly if it can be and the command arrives
  (`SagaCompensation.FailureCancelsIff`). For what the saga recorded, the logged completion of a
  compensation is reliable (`SagaTheorems.CompletedMeansUndone`).
* Stock that was never recorded may stay held for good. When the answer to ReserveStock is lost, the
  driver fails the saga without releasing anything (`SagaLeftovers.FailedMayHoldTheStock`), so
  counting what was not recorded, only failures from STARTED and PENDING leave nothing behind
  (`SagaLeftovers.FailingHoldsNothingIff`). An unrecorded reservation is recorded or released by the
  saga in some continuation exactly if its driver is about to record it in RESERVING_STOCK, or to
  record or release it while it is still held (`SagaLeftovers.ReservationSettledIff`).
* Money that was never recorded is kept. When the answer to AuthorizeAndCapture is lost, the
  compensation completes, is logged as complete and reported as a success, and the captured payment
  stays (`SagaLeftovers.CompletedMayKeepThePayment`). An unrecorded payment is recorded in some
  continuation exactly if the saga is PAYING and its driver is about to record it
  (`SagaLeftovers.PaymentRecordedIff`), and given back by the saga in some continuation exactly if
  in addition it is captured, not refunded, and the stock is not committed
  (`SagaLeftovers.PaymentGivenBackIff`).
* Retrying a compensation does not always converge. A compensating saga can still complete exactly
  if its order can still be cancelled, the configured end state is one that COMPENSATING leads to,
  and either its recorded reservation is not committed and its recorded payment not yet refunded,
  or a process is left that has the refund behind it (`SagaCompensation.CompensationCompletesIff`).
  An order that is paid, confirmed or refunded cannot be cancelled any more, and no compensation
  completes then (`SagaCompensation.ClosedOrderBlocksCompensation`).
* PUBLISHED is not final once a poller outstays its lease (`OutboxTimely.PublishedMayBeUndone`).
  A PUBLISHED or DEAD_LETTER row is left alone for good exactly if no process still has its message
  further back in its batch, or at the front to be published or to be marked as something else
  (`OutboxFinality.TerminalIsFinalIff`).
* A message is lost when its consumer crashes after TryStartProcessing
  (`InboxRuns.CrashLosesTheMessage`). It can still be handled exactly if it is not closed: no row,
  a FAILED one, or somebody at its handler, its failure mark or its restart
  (`InboxRuns.CanBeHandledIff`). With the Postgres repository two handlers can then also run at
  once, from every FAILED row (`InboxRuns.HandledTwice`, `InboxRuns.OverlapIff`).
* Cancelling a cancelled order is not a no-op (`OrderRuns.CancellingAgainAnnouncesAgain`). And two
  confirmations that cross both succeed and both announce it (`OrderStory.ConfirmedTwiceOver`): a
  write that finds the order in its target already files its rows once more. The outbox holds one
  change for every version exactly if no write did that (`OrderStory.TheOutboxTellsAll`).
* A payment may be REFUNDED without a refund record (`PaymentRuns.RefundMayGoUnrecorded`); it gets
  one later exactly if the process that refunded it is still about to write it
  (`PaymentRuns.RecordedLaterIff`).
* An answer of the inventory is that of the whole operation run in one step, but for a shortage
  report that counts a SKU as missing which arrived after the transaction's snapshot
  (`InventoryVerdicts.VerdictIsSerialIff`, `InventoryVerdicts.ReportMayBeStale`).
* Re-indexing ends if and only if every page boundary has a year of four digits
  (`Catalog.EndsIffNavigable`).
* Retry-After is not enough for a limit of one request per window unless the window was just
  opened (`TokenBucket.RetryAfterIsEnough`). A client that has been denied goes on being denied
  exactly as long as it asks again within window / capacity (`TokenBucket.EagerClientStarves`).
* Quantities summed per SKU wrap: too little is reserved and too little is charged
  (`InventoryService.OverflowUnderReserves`, `OrderPricing.OverflowUndercharges`). The charge is
  what the lines cost exactly if every SKU's quantities can be added up, and less otherwise
  (`OrderPricing.OrderCharge`).
* A cart request may report failure although it was committed: always over its totals, possibly
  with a storage error, and never otherwise (`CartRuns.FailureChangesNothing`,
  `CartRuns.TotalsFitExactly`). It may report success with the items of a later version
  (`CartRuns.SuccessMayShowALaterCart`): they are those of the cart's version at the reload
  (`CartRuns.ReplyShowsTheCartAtReload`).
* The delay is the capped exponential exactly if the initial interval is below 2^(63 - shift), or its
  residue modulo 2^(64 - shift), shifted, reaches the maximum, so that the cap hides the overflow
  (`Backoff.DelayIsExponentialIff`); from the tenth retry on there is no wait at all exactly for
  the multiples of 2^54 nanoseconds (`Backoff.WaitMayVanish`).

## Model

| member | source | states |
|---|---|---|
| SagaFsm.TableClimbs | internal/domain/saga/fsm.go:4-68 | every allowed transition strictly climbs a rank, so the table has no cycle; terminal states lead nowhere |
| SagaSafety.StepKeepsInv | internal/domain/saga/coordinator.go:117-385 | every step of every driver, watchdog pass, participant and outsider keeps the invariant and only grows the world |
| SagaTheorems.ConfirmedIsWhole | internal/domain/saga/coordinator.go:219-225 | CONFIRMED implies the recorded reservation COMMITTED, the order CONFIRMED, a captured payment of exactly the total, recorded, and no refund by the saga |
| SagaTheorems.RefundMeansReleasedForGood | internal/domain/saga/coordinator.go:256-272 | from the first refund by the saga on, its recorded reservation is and stays RELEASED and the saga never confirms |
| SagaTheorems.RefundIsInFull | internal/domain/saga/coordinator.go:264-272 | in every run the saga gives money back at most once, and then exactly what was captured |
| SagaTheorems.CompletedMeansUndone | internal/domain/saga/coordinator.go:234-287 | once compensation is logged as complete, order CANCELLED, recorded reservation RELEASED, recorded payment REFUNDED, for ever |
| SagaTheorems.LogIsAChain | internal/domain/saga/repository.go:131-196 | the log is a chain of legal transitions ending in the current state, at most seven entries, nothing after a terminal one |
| SagaTheorems.OneReserveOneCapture | internal/domain/saga/coordinator.go:134-196 | however many drivers race, at most one ReserveStock and at most one AuthorizeAndCapture is sent |
| SagaTheorems.CompareAndSetIsSafe | internal/domain/saga/repository.go:131-184 | for every transition that writes a payload read earlier (recording, capture, compensation, failure) and every delivery: if the compare-and-set on the state alone takes effect, what is written is the stored payload, with no more than the id just obtained added |
| SagaTheorems.SuccessMeansTerminal | internal/domain/saga/coordinator.go:117-311 | a success reply implies a terminal state, which never changes again |
| SagaTheorems.CommittedStockBlocksCompensation | internal/domain/inventory/service.go:281-321 | after committed stock no retry ever completes a compensation |
| SagaTheorems.CrashAfterRefundBlocksCompensation | internal/domain/payment/service.go:171-224 | after a refund whose process is gone no retry ever completes the compensation |
| SagaTheorems.StaleScanFailsACompensatingSaga | internal/domain/saga/watchdog.go:127-170 | a run in which a stale scan fails a compensating saga that still holds its stock |
| SagaTheorems.FailureIsCleanExactly | internal/domain/saga/coordinator.go:290-311 | leaving COMPENSATING for a failed state means all that was recorded is undone, for every run, if and only if the logged event is not the stock-reservation failure |
| SagaTheorems.FailedSagaMayHaveSoldTheGoods | internal/domain/saga/watchdog.go:141-148 | a run that ends FAILED with stock committed, order confirmed and payment kept |
| SagaCompensation.CompensationCompletesIff | internal/domain/saga/coordinator.go:234-287 | a compensating saga completes in some continuation iff its order can be cancelled, the end state is legal, and the recorded reservation is uncommitted and the recorded payment unrefunded, or a process has the refund behind it |
| SagaCompensation.ClosedOrderBlocksCompensation | internal/domain/order/models.go:35-57 | once the order is paid, confirmed or refunded no compensation ever completes, whatever is retried |
| SagaCompensation.FailureRecordsNothingIff | internal/domain/saga/coordinator.go:290-311 | in every run a failure by the watchdog starts from the state it re-read, changes state and log alone, and finds nothing recorded iff that state is STARTED, PENDING or RESERVING_STOCK |
| SagaCompensation.FailingIsCleanIff | internal/domain/saga/coordinator.go:290-311 | for each non-terminal state: failing a saga from it leaves nothing recorded standing in every run iff it is STARTED, PENDING or RESERVING_STOCK |
| SagaCompensation.FailureCancelsIff | internal/domain/saga/coordinator.go:300-303 | in every run, after that path has asked for the cancellation, the order is CANCELLED in every continuation iff it was, or could be and the command arrived, and CANCELLED in some continuation iff it could be; the path goes on to the failure regardless |
| SagaLeftovers.FailedMayHoldTheStock | internal/domain/saga/coordinator.go:153-167 | a run without any stale scan that ends FAILED and CANCELLED with the stock held and unrecorded, which no continuation of the saga ever records or releases |
| SagaLeftovers.FailingHoldsNothingIff | internal/domain/saga/coordinator.go:290-311 | for each non-terminal state: failing a saga from it leaves no stock and no money that it asked for, recorded or not, in every run iff it is STARTED or PENDING |
| SagaLeftovers.ReservationSettledIff | internal/domain/saga/coordinator.go:153-176 | an unrecorded reservation that is not released is recorded or released in some continuation in which nobody else settles it iff its driver is about to record it in RESERVING_STOCK, or it is held and its driver is about to record or release it |
| SagaLeftovers.CompletedMayKeepThePayment | internal/domain/saga/coordinator.go:183-196 | a run without any stale scan whose compensation is logged as complete and reported as a success while the full amount stays captured; no continuation gives it back |
| SagaLeftovers.PaymentRecordedIff | internal/domain/saga/coordinator.go:198-201 | a payment asked for and not recorded is recorded in some continuation iff the saga is PAYING and a driver is about to record it |
| SagaLeftovers.PaymentGivenBackIff | internal/domain/saga/coordinator.go:198-201 | such a payment is refunded by the saga in some continuation iff it can still be recorded, is captured and not refunded, and the stock is not committed |
| SagaAlone.WatchdogPass | internal/domain/saga/watchdog.go:127-170 | from every reachable unfinished state, a pass that nothing gets in the way of: a saga in STARTED, PENDING or RESERVING_STOCK ends FAILED through StockReservationFailed, its order cancelled if it can be and nothing recorded touched; one in STOCK_RESERVED, PAYING, PAID or COMPENSATING is compensated to the configured end with all that was recorded undone iff the order can be cancelled, the end is legal and nothing recorded is committed or refunded, and is never failed |
| SagaAlone.PassLogsOnly | internal/domain/saga/watchdog.go:141-167 | in every interleaving, with anything lost: a pass that found one of the first three states logs nothing but StockReservationFailed, and one that found a later state never logs it |
| SagaDriver.DriverAlone | internal/domain/saga/coordinator.go:117-226 | from every reachable new saga, a driver that nothing gets in the way of: if the stock is refused it ends FAILED without a charge, if the payment is refused it is compensated to the end iff the order can be cancelled and the end is legal, and otherwise the stock is sold and it ends CONFIRMED iff the order can be confirmed, on rows, log and reply |
| SagaDriver.CommitIsTriedThrice | internal/domain/saga/coordinator.go:203-217 | whatever becomes of each attempt to commit the stock: there are three, the driver goes on iff the answer to one arrives, and then the stock is COMMITTED and nothing else has changed |
| SagaCoordinator.SagaRuntime.ExecuteSaga | internal/domain/saga/coordinator.go:117-226 | the driver, step by step, is a process of the saga system; success implies a terminal saga |
| SagaCoordinator.SagaRuntime.CommitAndConfirm | internal/domain/saga/coordinator.go:203-225 | three attempts to commit the stock, then confirmation |
| SagaCoordinator.SagaRuntime.Compensate | internal/domain/saga/coordinator.go:234-287 | compensation is a process of the saga system; success implies a terminal saga |
| SagaCoordinator.SagaRuntime.ReleaseAndRefund | internal/domain/saga/coordinator.go:256-272 | release before refund, each only for a recorded id, stopping at the first error |
| SagaCoordinator.SagaRuntime.HandleStockReservationFailure | internal/domain/saga/coordinator.go:290-311 | the path of the watchdog for early states, an order that cannot be cancelled notwithstanding |
| SagaCoordinator.SagaRuntime.TransitionAndLog | internal/domain/saga/coordinator.go:313-385 | the compare-and-set and the log entry are one step, and nothing happens when it fails |
| SagaCoordinator.SagaRuntime.SettleStock | cmd/shopflow/main.go:379-385 | commit or release through the adapter, with lost answers |
| SagaCoordinator.SagaRuntime.MoveOrderTo | cmd/shopflow/main.go:402-424 | cancel or confirm the order through the adapter |
| SagaCoordinator.FindTimedOutSagas | internal/domain/saga/repository.go:230-260 | the snapshot of states that a watchdog pass acts on, taken without changing any row |
| SagaCoordinator.ProcessExpiredSagas | internal/domain/saga/watchdog.go:127-170 | unless the query fails, the sagas of the batch are dispatched on their snapshot, in order, up to the one before which the context is found cancelled; the rest are left alone; each pass is a process of that saga's system, and one that found a later state than RESERVING_STOCK logs nothing but steps of a compensation |
| InventoryDb.ExecKeepsConserved | internal/domain/inventory/repository.go:96-197 | every operation keeps the conservation law: reserved equals the pending quantities, 0 <= reserved <= on hand, delivered equals on hand plus committed |
| InventoryDb.SettlingIsFinal | internal/domain/inventory/service.go:199-321 | a settled reservation stays settled whatever operations follow: repeating is accepted without effect, the opposite is refused |
| InventoryService.ReserveIsExact | internal/domain/inventory/service.go:69-197 | with sums that fit: refused for stock iff some SKU is short, naming exactly the short ones, ascending; else refused iff a duplicate; else exactly the demand is reserved |
| InventoryService.SumsAreExactIffTheyFit | internal/domain/inventory/service.go:83-94 | the consolidated quantity is the real sum iff that fits in 64 bits |
| InventoryService.OverflowUnderReserves | internal/domain/inventory/service.go:93 | a request for 2^64 + 1 pieces is granted one |
| InventoryOutcomes.SettlingIsExact | internal/domain/inventory/service.go:199-363 | a commit or a release, by id or by order: a held reservation is always settled, its quantities leaving what is reserved and, if sold, what is on hand, and nothing else changes; one settled the same way succeeds without effect, the other way is refused with its status |
| InventoryOutcomes.SettlingUnknown | internal/domain/inventory/service.go:199-363 | where no row has that id or that order, nothing is found and nothing happens |
| InventoryOutcomes.DeliveryIsExact | internal/domain/inventory/repository.go:96-113 | a delivery is accepted iff the stock still fits its column, for a new SKU and for one that is there; it adds to that SKU's stock on hand and to nothing else |
| InventoryOutcomes.FaultIsExact | internal/domain/inventory/service.go:83-94 | there is no fault iff every line has a SKU that is not all white space and a positive quantity; else the first line that has not decides the error, its SKU first |
| InventoryService.Service.ReplenishStock | internal/domain/inventory/service.go:51-67 | adds to the SKU's row or leaves the tables alone, with the reason |
| InventoryService.Service.ReserveStock | internal/domain/inventory/service.go:69-197 | reply and tables are those of the single-step operation; any failure leaves every row as it was |
| InventoryService.Service.Consolidate | internal/domain/inventory/service.go:83-94 | the first faulty line decides; otherwise the sums per trimmed SKU |
| InventoryService.Service.FindShortages | internal/domain/inventory/service.go:113-146 | exactly the short SKUs, ascending |
| InventoryService.Service.MoveStock | internal/domain/inventory/repository.go:147-197 | goes through iff every row satisfies its CHECK constraints, and then has moved each row by its quantity |
| InventoryService.Service.CommitStock | internal/domain/inventory/service.go:199-238 | outcome and tables of the single-step settlement |
| InventoryService.Service.CommitStockByOrderId | internal/domain/inventory/service.go:240-279 | the same by order |
| InventoryService.Service.ReleaseStock | internal/domain/inventory/service.go:281-321 | outcome and tables of the single-step settlement |
| InventoryService.Service.ReleaseStockByOrderId | internal/domain/inventory/service.go:323-363 | the same by order |
| InventoryLocks.CommitIsAtomic | internal/domain/inventory/repository.go:115-145 | the writes of a transaction that holds its locks are those of one step on the tables as they are at commit |
| InventoryLocks.StepKeepsInv | internal/domain/inventory/service.go:69-363 | every lock taken, commit, abort and delivery keeps locks exclusive, views current and the serial history true |
| InventoryLocks.Serializable | internal/domain/inventory/service.go:69-363 | in every interleaving the tables are the result of the committed operations run one after the other, each succeeding |
| InventoryLocks.StockIsConserved | internal/domain/inventory/service.go:51-363 | the conservation law for every SKU in every reachable state |
| InventoryLocks.TakesInOrder | internal/domain/inventory/service.go:96-111 | whatever a transaction holds comes before what it waits for: reservation row, SKUs ascending, inserted keys |
| InventoryLocks.NeverStuck | internal/domain/inventory/repository.go:115-145 | for any number of transactions: while one is unfinished, one can go on |
| InventoryLocks.GoingOnEnds | internal/domain/inventory/repository.go:115-145 | every free step brings its transaction nearer to its end and moves no other |
| InventoryVerdicts.VerdictIsSerialIff | internal/domain/inventory/service.go:96-150 | in every interleaving the step that ends a transaction, in a commit or a refusal, gives the answer and the tables of the whole operation run at that moment, iff it is not a shortage report that overlooks a SKU which came into stock after the snapshot |
| InventoryVerdicts.ReportMayBeStale | internal/domain/inventory/repository.go:115-145 | a run in which one piece is refused although five have been delivered |
| OutboxRuns.LeaseTakesTheOldest | internal/domain/outbox/mock_repository.go:56-99 | a lease takes as many due rows as the batch allows, each once, in (created_at, id) order, leaving none older |
| OutboxSafety.StepKeepsInv | internal/domain/outbox/poller.go:177-302 | every step of every poller keeps the invariant; retries only grow and the log is only appended to |
| OutboxSafety.ActCounts | internal/domain/outbox/poller.go:238-302 | failed publishes, counted retries and marks still owed move together in every step, but for a mark that is lost |
| OutboxSafety.PublishedIsInTheLog | internal/domain/outbox/poller.go:217-228 | a row that was ever PUBLISHED has a copy with its own key in the log, for good |
| OutboxSafety.DeadLetterWasTried | internal/domain/outbox/poller.go:248-273 | in every interleaving DEAD_LETTER, and every dead letter on file, has had at least MaxRetries failed publishes |
| OutboxTimely.LeasesAreExclusive | internal/domain/outbox/repository.go:101-179 | if nobody works past a lease, a live lease has one holder, and the row is as it was leased |
| OutboxTimely.TerminalIsFinal | internal/domain/outbox/repository.go:200-235 | if nobody works past a lease, PUBLISHED and DEAD_LETTER never change; `OutboxFinality.TerminalIsFinalIff` has the exact condition |
| OutboxTimely.EveryFailureCounts | internal/domain/outbox/mock_repository.go:136-157 | if no mark is lost, failed publishes are exactly the counted retries and the marks still owed |
| OutboxTimely.RetriesRunOut | internal/domain/outbox/poller.go:238-302 | then a message fails at most MaxRetries times, plus once per process that stalled past its lease, and DEAD_LETTER comes with exactly the last |
| OutboxTimely.PublishedMayBeUndone | internal/domain/outbox/repository.go:200-235 | for every configuration a run that takes PUBLISHED back |
| OutboxFinality.TerminalIsFinalIff | internal/domain/outbox/repository.go:200-235 | in every continuation a PUBLISHED or DEAD_LETTER row stays as it is and its message is not published again, iff no process has its message still to come in its batch, or at the front to publish or to mark as something else |
| OutboxAttempts.CleanIsMarked | internal/domain/outbox/poller.go:177-302 | if nobody works past a lease and no mark is lost: the publishes without an error are the one that made the row PUBLISHED and those not yet marked |
| OutboxAttempts.AttemptsRunOut | internal/domain/outbox/poller.go:238-302 | then a message is published without an error at most once, and at all at most MaxRetries times, each plus one per process that let its lease run out before its mark |
| OutboxAttempts.PollingRunsOut | internal/domain/outbox/poller.go:177-302 | then the publishes of a whole run, of all pollers together, are at most MaxRetries per message of the table plus one per such process: polling ends |
| OutboxLeases.LeaseIsExact | internal/domain/outbox/mock_repository.go:56-99 | on row fields: a delivered lease takes a row iff it is PENDING or FAILED, its lease or wait is absent or past, it is not locked, and fewer such rows than the batch size are older; it gets the new term and the worker, and every other row stays as it is |
| OutboxLeases.FailureIsMarked | internal/domain/outbox/poller.go:238-302 | after a publish that failed, with its mark delivered: one retry more; FAILED and out of reach until the backoff is over, or DEAD_LETTER iff that was the last retry, and then a dead letter with that count |
| OutboxLeases.ReportsItsMarks | internal/domain/outbox/poller.go:217-235 | in every run a cycle reports as many published messages as it has marked PUBLISHED with the answer arriving |
| OutboxLeases.EveryOpenRowIsPublished | internal/domain/outbox/poller.go:177-302 | from every reachable state, whatever has failed or crashed before: pollers that are left alone publish and mark every PENDING and every FAILED row, and change no other |
| Backoff.WaitIsBounded | internal/domain/outbox/backoff.go:29-57 | a retry waits at most MaxInterval and a quarter of it |
| Backoff.DelayIsExponentialIff | internal/domain/outbox/backoff.go:29-57 | the delay is the initial interval times 2^min(retry, 10), capped at the maximum, iff the initial interval is below 2^(63 - shift), or its residue modulo 2^(64 - shift), shifted, reaches the maximum |
| Backoff.WaitIsExponential | internal/domain/outbox/backoff.go:29-57 | up to the last retry whose product fits, later delays are never shorter, and jitter adds at most a quarter |
| Backoff.JitterIsExact | internal/domain/outbox/backoff.go:46-56 | with jitter the waits that can come out are exactly those from the delay up to, but not including, a quarter more; without it, or when the draw fails, it is the delay |
| Backoff.WaitMayVanish | internal/domain/outbox/backoff.go:39-40 | from the tenth retry on, with any draw: no wait at all iff the initial interval is a multiple of 2^54 nanoseconds |
| OutboxPoller.PollerRuntime.LeaseMessages | internal/domain/outbox/mock_repository.go:56-99 | leases in one step the batch that `OutboxLeases.LeaseIsExact` describes on row fields and returns it, or fails |
| OutboxPoller.PollerRuntime.TakeBatch | internal/domain/outbox/mock_repository.go:63-98 | the loop takes the first rows that are PENDING or FAILED and due, in order, and puts the new term on exactly those (`OutboxLeases.LeaseIsExact`) |
| OutboxPoller.PollerRuntime.Publish | internal/domain/outbox/poller.go:209-236 | success implies a copy in the log; an error owes a mark with the right verdict and time |
| OutboxPoller.PollerRuntime.MarkPublished | internal/domain/outbox/mock_repository.go:118-133 | the unconditional mark, and what is counted as published |
| OutboxPoller.PollerRuntime.MarkFailed | internal/domain/outbox/mock_repository.go:136-157 | the unconditional mark: one retry more, dead or scheduled |
| OutboxPoller.PollerRuntime.HandlePublishFailure | internal/domain/outbox/poller.go:238-302 | mark, and a dead letter exactly when retries have run out |
| OutboxPoller.PollerRuntime.PollAndPublish | internal/domain/outbox/poller.go:177-236 | ends for every batch, is a process of the outbox system, what it reports as published is in the log; `OutboxLeases.EveryOpenRowIsPublished` says where repeating it leads |
| InboxRuns.StepKeepsInv | internal/domain/inbox/processor.go:106-208 | every step of every consumer keeps the invariant |
| InboxRuns.OneFinalRun | internal/domain/inbox/mock_repository.go:32-62 | per message and group: runs never overlap, and at most one ends other than in a retry, as the last; with Postgres as long as none had to be retried |
| InboxRuns.ClosedIsForGood | internal/domain/inbox/mock_repository.go:32-92 | a message whose row is not FAILED and that nobody handles, marks as failed or restarts is never handled again, with either repository; if nobody has it in hand at all its row never changes |
| InboxRuns.CrashLosesTheMessage | internal/domain/inbox/processor.go:141-196 | a crash between start and mark closes the row in that sense |
| InboxRuns.CanBeHandledIff | internal/domain/inbox/processor.go:141-196 | with either repository, a message with an identity can still be handled in some continuation iff it is not closed in that sense |
| InboxRuns.HandledTwice | internal/domain/inbox/repository.go:77-105 | with the Postgres repository every run that has a FAILED row goes on to one with two handlers at once that both succeed |
| InboxRuns.OverlapIff | internal/domain/inbox/repository.go:77-105 | two handlers of a message can come to run at once iff the repository is the Postgres one and the message is not closed |
| InboxPoison.PoisonIsFiled | internal/domain/inbox/processor.go:178-187 | in every run, per message and group: the handler runs that rejected it are the dead letters filed for it, the processes that still owe one, and those whose write was not made or that crashed before it |
| InboxPoison.NothingElseIsFiled | internal/domain/inbox/processor.go:106-238 | the dead letters are one for each write made for a message without an identity, with a malformed payload or rejected by its handler |
| InboxPoison.ProcessedAlone | internal/domain/inbox/processor.go:106-208 | from every reachable state, a message that nothing gets in the way of: the identity it goes by, when its handler runs, the status, dead letter and answer for each outcome of the handler |
| InboxProcessor.ProcessorRuntime.TryStartProcessing | internal/domain/inbox/repository.go:57-112 | insert, skip or restart, in one step or, for Postgres, read and then write |
| InboxProcessor.ProcessorRuntime.MarkCompleted | internal/domain/inbox/mock_repository.go:65-77 | after a reported success the row is COMPLETED |
| InboxProcessor.ProcessorRuntime.RouteToDLQ | internal/domain/inbox/processor.go:210-238 | a reported success has filed the message under its identity; it is filed iff the write is made |
| InboxProcessor.ProcessorRuntime.ProcessMessage | internal/domain/inbox/processor.go:106-208 | no handler without identity and valid payload; a retriable failure is reported; a handled message is COMPLETED; a message that is malformed or rejected by its handler is filed as a dead letter unless that write is not made, and no other is |
| Pipeline.EachHalfRuns | internal/domain/outbox/poller.go:177-236 | the composition reaches only states that outbox and inbox reach on their own |
| Pipeline.ExactlyOnceEffect | internal/domain/inbox/processor.go:106-208 | from outbox row to handler: one run at a time and at most one final run per group, only for published messages, whatever is leased, published or delivered twice |
| OrderIdempotency.OneOrderPerKey | internal/domain/order/repository.go:55-152 | over any sequence of requests under a key: at most one order, one OrderCreated row for it, every success about that order, no key row left PROCESSING |
| OrderIdempotency.RepliesAreSettled | internal/domain/order/repository.go:55-136 | once the order exists, the reply to every further request, and that it changes nothing; `ReplayIff` says so from the requests alone |
| OrderIdempotency.FirstRequestWins | internal/domain/order/service.go:170-237 | exactly when a request without a predecessor places its order, and exactly when it conflicts |
| OrderIdempotency.ReplayIff | internal/domain/order/repository.go:55-136 | from the requests alone: after a request that placed an order, a later delivered one is answered with that order iff it has the same hash and comes within the time to live, which is a day unless a positive one was asked for; with another hash in that time it conflicts; after it, it fails |
| OrderIdempotency.OrderStore.LockIdempotencyKey | internal/domain/order/repository.go:55-136 | new, conflicting, concurrent or answered, and what becomes of the key row, whose hash and expiry `ReplayIff` pins |
| OrderIdempotency.OrderStore.CreateOrder | internal/domain/order/service.go:170-237 | rows and reply of the transaction; a failure or a lost begin leaves everything as it was; a retry in time gets the order (`ReplayIff`) |
| OrderIdempotency.OrderStore.CreateOrderWithItemsAndOutbox | internal/domain/order/repository.go:272-285 | the unique (user, key) index, order and outbox row together |
| OrderRuns.StepKeepsInv | internal/domain/order/service.go:283-464 | every step keeps outbox and status in agreement and terminal statuses in place |
| OrderRuns.TerminalIsForGood | internal/domain/order/models.go:25-57 | a terminal order status never changes |
| OrderRuns.NeverConfirmedAndCancelled | internal/domain/order/service.go:283-422 | the outbox never holds both OrderConfirmed and OrderCancelled of an order |
| OrderRuns.SuccessIsLasting | internal/domain/order/service.go:283-422 | a reported cancellation or confirmation is the order's status for good |
| OrderRuns.CancellingAgainAnnouncesAgain | internal/domain/order/models.go:35-38 | in every run, n further cancellations of a cancelled order all succeed, with n further versions and n further announcements |
| OrderStory.TheOutboxTellsAll | internal/domain/order/repository.go:418-468 | in every run the outbox rows of an order are a chain of legal changes that ends in its status; there is one for every version iff no write only echoed |
| OrderStory.ConfirmedTwiceOver | internal/domain/order/service.go:355-422 | a run in which two confirmations succeed and are both announced |
| OrderStory.AnnouncedIff | internal/domain/order/service.go:283-422 | unless somebody moves an order there by TransitionStatus: OrderConfirmed is in the outbox iff the order has become CONFIRMED, and OrderCancelled iff CANCELLED |
| OrderStory.CancelAlone | cmd/shopflow/main.go:402-412 | the saga's cancellation, alone: accepted without effect if CANCELLED, done with one version and OrderCancelled if that is a legal change, refused without effect otherwise |
| OrderStory.ConfirmAlone | cmd/shopflow/main.go:414-424 | the saga's confirmation, alone: likewise, with the change of status and OrderConfirmed |
| OrderRuns.OrderRuntime.Update | internal/domain/order/repository.go:418-450 | compare-and-set on status and version, an order already there counting as success, with its events in the same step |
| OrderRuns.OrderRuntime.CancelOrder | internal/domain/order/service.go:283-353 | only the owner, with a reason; success implies CANCELLED |
| OrderRuns.OrderRuntime.ConfirmOrder | internal/domain/order/service.go:355-422 | success implies CONFIRMED |
| OrderRuns.OrderRuntime.TransitionStatus | internal/domain/order/service.go:424-464 | illegal transitions are refused without effect; success implies the new status |
| OrderRuns.OrderRuntime.CancelForSaga | cmd/shopflow/main.go:402-412 | the adapter reads first and treats a cancelled order as done |
| OrderRuns.OrderRuntime.ConfirmForSaga | cmd/shopflow/main.go:414-424 | the adapter confirms at the version it read first |
| OrderPricing.ConsolidationKeepsTheCharge | internal/domain/order/service.go:77-136 | putting lines together per SKU does not change what they cost |
| OrderPricing.OrderCharge | internal/domain/order/service.go:77-149 | the total is never more than what the lines cost as sent, and exactly that iff each SKU's quantities can be added up |
| OrderPricing.OverflowUndercharges | internal/domain/order/service.go:86 | an order for 2^64 + 1 pieces that is charged as one |
| OrderRefusals.LetThroughIff | internal/domain/order/service.go:63-128 | an order gets as far as its totals iff it has 1 to 100 lines, each with a name and a positive quantity, and every SKU asked for is in the catalog, active, priced, and has no other currency |
| OrderRefusals.RefusedFor | internal/domain/order/service.go:109-127 | else, with sound lines, the error is that of the first SKU in byte order that cannot be sold |
| OrderRefusals.PriceIs | internal/domain/order/service.go:121-127 | the price is the one in minor units if that is positive, or else the other amount, and positive |
| OrderRefusals.CurrencyIs | internal/domain/order/service.go:71-74 | the currency asked for without its outer white space, or USD if there is none |
| OrderPricing.PriceOrder | internal/domain/order/service.go:64-149 | the first fault of a line, else the first objection in SKU order, else the total, which is what the lines cost iff each SKU's quantities can be added up; an overflow, when they can, iff the real sum does not fit |
| PaymentRuns.StepKeepsInv | internal/domain/payment/service.go:34-224 | every repository access of every call keeps index, table and refund records in agreement |
| PaymentRuns.OnePaymentPerKey | internal/domain/payment/mock_repository.go:38-69 | at most one payment per (user, key), however many calls race |
| PaymentRuns.RepliesAgree | internal/domain/payment/service.go:34-168 | all replies under a key report the same payment, which never changes but for a refund |
| PaymentRuns.ReplyFitsTheCall | internal/domain/payment/service.go:34-168 | a reported payment has the call's user, order and amount, and its key or, for an empty one, the key drawn for it |
| PaymentRuns.RefundedAtMostOnce | internal/domain/payment/service.go:171-224 | at most one refund record, for at most the captured amount, and only of a REFUNDED payment |
| PaymentRuns.RefundMayGoUnrecorded | internal/domain/payment/service.go:192-223 | a crash between status and record leaves REFUNDED without a record in every continuation |
| PaymentRuns.RecordedLaterIff | internal/domain/payment/service.go:192-223 | a REFUNDED payment without a record gets one in some continuation iff a process is about to write it |
| PaymentVerdicts.CapturedWasApproved | internal/domain/payment/service.go:75-168 | in every run each payment that is or was captured stems from a call with its user, key, order and amount that the gateway approved, and each declined one from such a call that it refused |
| PaymentVerdicts.PaidWasApproved | internal/domain/payment/service.go:50-74 | so no call under a key, retried or not, is answered with a payment unless an approved call made it |
| PaymentVerdicts.CallAlone | internal/domain/payment/service.go:34-168 | from every reachable state, a call that nothing gets in the way of: the replay, conflict or refusal it gets, or the row it stores, captured or declined, and its answer |
| PaymentVerdicts.RefundAlone | internal/domain/payment/service.go:171-224 | likewise a refund: made and recorded with its amount iff the payment is captured, not refunded and at least as large; else refused with the reason, and nothing changes |
| PaymentVerdicts.VerdictIs | internal/domain/payment/service.go:75-91 | each of the eleven words is refused with its error, up to case and outer white space, and every other token is approved |
| PaymentRuns.PaymentRuntime.AuthorizeAndCapture | internal/domain/payment/service.go:34-168 | check, create, refetch on conflict; a process of the payment system; a paid reply is about a stored payment for the same order and amount; a timeout is answered only for a token that times out |
| PaymentRuns.PaymentRuntime.CreatePayment | internal/domain/payment/repository.go:44-82 | validation, then the insert under the unique index: a paid reply means the gateway approved and the row is captured, any other answer but a storage error that it refused and the row is declined |
| PaymentRuns.PaymentRuntime.Refund | internal/domain/payment/service.go:171-224 | success implies a refund record of a REFUNDED payment |
| PaymentRuns.PaymentRuntime.TransitionPaymentStatus | internal/domain/payment/repository.go:129-154 | the compare-and-set from SUCCESS to REFUNDED |
| Cursor.TimeRoundTrip | internal/domain/catalog/repository.go:176-219 | a timestamp is read back as itself iff its year has four digits, else not at all (section 5.6 of RFC 3339) |
| Cursor.CursorRoundTrip | internal/domain/catalog/repository.go:171-220 | a cursor leads back to its row iff the year has four digits, else to the first page |
| Catalog.PageSteps | internal/domain/catalog/repository.go:158-224 | a page holds the first rows after its cursor, says whether more follow, and its own cursor leads to its last row or nowhere |
| Catalog.PagesConcatenate | internal/domain/catalog/repository.go:158-224 | the pages of a fixed table give every row once, newest first, and end |
| Catalog.EndsIffNavigable | internal/domain/catalog/service.go:301-330 | following the cursors ends iff every page boundary can be read back |
| Reindex.CatalogService.ListProducts | internal/domain/catalog/repository.go:158-224 | the row loop returns the page, with one row more asked for |
| Reindex.CatalogService.ReindexAll | internal/domain/catalog/service.go:292-333 | ends for every finite number of additions; every product there from the start is indexed once, none twice, newest first; a table left alone is indexed as listed; the count is right |
| TokenBucket.AllowedAtMost | internal/platform/ratelimit/ratelimit.go:61-93 | requests i .. j admit at most capacity + floor(capacity * time between them / window) |
| TokenBucket.AllowedIff | internal/platform/ratelimit/ratelimit.go:61-93 | each answer from the answers before it: allowed iff every stretch of requests up to it has admitted fewer than the capacity and what its pauses gave back, each rounded down; how many remain is the least of what is left, and a denial names the rest of the window |
| TokenBucket.TokensInRange | internal/platform/ratelimit/ratelimit.go:67-92 | tokens stay within 0 .. capacity - 1 and the key carries the time of the last request |
| TokenBucket.ExpiryIsInvisible | internal/platform/ratelimit/ratelimit.go:84-89 | a key that has expired and one that has not answer alike |
| TokenBucket.ExpiryNeverShows | internal/platform/ratelimit/ratelimit.go:84-89 | over every history, with the key expiring whenever it may, each request gets the answer it gets when the key never expires |
| TokenBucket.RetryAfterIsEnough | internal/platform/ratelimit/ratelimit.go:87-92 | a denied client that waits as told is admitted iff the capacity is at least two or nothing of the window had passed |
| TokenBucket.EagerClientStarves | internal/platform/ratelimit/ratelimit.go:76-92 | after a denial all requests of a stretch are denied iff less than window / capacity passes between any two of them |
| TokenBucket.RedisKey.RunScript | internal/platform/ratelimit/ratelimit.go:61-93 | the script's assignments give the answer and the hash of the specification |
| Money.ProductFits | internal/domain/money/money.go:69-71 | the guard of the checked multiplication fails iff the product is too large |
| Money.AddIsExact | internal/domain/money/money.go:40-48 | overflow iff the sum is too large; the sum iff it fits |
| Money.MultiplyIsExact | internal/domain/money/money.go:62-73 | the same for products |
| Money.SubUndoesAdd | internal/domain/money/money.go:51-59 | Sub takes apart what Add put together |
| Money.ArithmeticStaysValid | internal/domain/money/money.go:28-73 | amounts that New lets through, added, subtracted or multiplied with success, give amounts that New lets through |
| Totals.ScanIsExact | internal/domain/order/models.go:103-124 | such a loop gets through iff no line is at fault and the unbounded sum fits, and stops at the first reason |
| Totals.FoldedIsTheSum | internal/domain/money/money.go:40-73 | multiplying and adding with Money succeeds iff the sum fits, and is the sum |
| Totals.OrderTotalIsExact | internal/domain/order/models.go:95-128 | an order has a total iff 1 to 100 valid lines sum within int64; it is Money's |
| Totals.CartTotalIsExact | internal/domain/cart/models.go:49-96 | the same for carts, with their currency |
| Totals.Order.CalculateTotals | internal/domain/order/models.go:95-128 | error, total and every item's subtotal, also when it stops half-way |
| Totals.Cart.CalculateTotals | internal/domain/cart/models.go:49-96 | error, currency, total and every item, also when it stops half-way |
| CartRuns.StepKeepsInv | internal/domain/cart/service.go:130-390 | every step keeps the cart equal to its history |
| CartRuns.CartIsItsHistory | internal/domain/cart/repository.go:107-220 | version is 1 plus the committed changes, items are their fold in order, one change per expected version and per request, nothing undone |
| CartStory.CartAddsUp | internal/domain/cart/repository.go:165-220 | in every run a SKU is in the cart in the quantity it was last set to, or none if it was removed or the cart cleared since, and what was added after that, at the price of the last addition |
| CartStory.EachWasAsked | internal/domain/cart/service.go:130-390 | in every run each committed change is one that the owner called for, expecting the version it was applied to, and each price is one the catalog offered for an active product |
| CartStory.CallAlone | internal/domain/cart/service.go:130-390 | a request that nothing gets in the way of: granted iff it can be, with cart, version and reply; else the first reason that holds, and nothing changes |
| CartRuns.SuccessIsTrue | internal/domain/cart/service.go:130-390 | a success reply has committed as the change that made its version, for good; its items are those of that version or a later one |
| CartRuns.ReplyShowsTheCartAtReload | internal/domain/cart/service.go:206-218 | the items of a reply are those of the cart's version at the reload, and those of the version it reports iff nothing was committed since or what was cancels out |
| CartRuns.SuccessMayShowALaterCart | internal/domain/cart/service.go:206-218 | a run in which they are those of a later one |
| CartRuns.FailureChangesNothing | internal/domain/cart/service.go:130-390 | over every run: a request that fails, but for a storage error or its totals, has committed nothing at any step; one that fails over its totals has committed exactly once |
| CartRuns.TotalsFitExactly | internal/domain/cart/service.go:207-216 | the totals check after the commit fails iff the cart's sum does not fit |
| CartRuns.CartStore.WriteItem | internal/domain/cart/repository.go:107-136 | version bump and item statement together or not at all; success is this change on the expected version |
| CartRuns.CartStore.ExecItem | internal/domain/cart/repository.go:165-220 | the item statements |
| CartRuns.CartStore.AddItem | internal/domain/cart/service.go:130-219 | success implies the owner's addition of the trimmed SKU was committed for the expected version |
| CartRuns.CartStore.UpdateQuantity | internal/domain/cart/service.go:221-281 | success implies the new quantity, or the removal for a quantity below one, was committed |
| CartRuns.CartStore.RemoveItem | internal/domain/cart/service.go:283-340 | success implies the removal was committed |
| CartRuns.CartStore.ClearCart | internal/domain/cart/service.go:342-390 | success implies the clearing was committed |

## Left out

- HTTP handlers, routing, JSON, problem responses, health, metrics, tracing, the web frontend, e-mail, image upload and the search engines: no state machine of their own.
- The broker client, Redis and the Postgres driver: a topic is what has been published, received any number of times in any order; a statement or transaction is one step with its WHERE and ON CONFLICT meaning.
- Tickers, worker start-up and shutdown, the catalog cache and in-memory search.
- Time in the saga: a watchdog pass may act at any moment, which covers every deadline; timeouts of calls are calls whose answer is lost.
- Direct refund, release and commit requests over HTTP: not part of the saga's environment; a payment refunded from outside appears only as `outsideRefunds`.
- Currencies and reasons in saga payloads, audit columns (`updated_at`, `last_error`, inventory `version`), topics and headers other than the message identity: they decide nothing that is modelled.
- The copy of a dead letter on the dead-letter topic: it is sent without looking at the result.
- Column widths outside the cart: SKU VARCHAR(64) in the inventory and order tables, VARCHAR(128) keys, INT quantities of order items; the INT columns and CHECK constraints of the stock tables are modelled.
- ExtendLease: no caller.
- Idempotency keys with status FAILED are modelled although no code in the repository writes one.
- Ids, hashes, base64 and UUID texts: fresh values, equality, the identity and the canonical lower-case form; cursors made by others, with other offsets or spellings, are not modelled, nor are timestamps printed in a zone other than UTC.
- SagaCoordinator.FindTimedOutSagas: the deadline, the ordering and the LIMIT of the query only choose which sagas are in the batch; the model takes any batch of unfinished sagas, at any time, so what holds for it holds for the query's.
- SagaTheorems.FailureIsCleanExactly: is told by the logged event, and looks at recorded ids; `SagaCompensation.FailingIsCleanIff` is told by the state that was re-read, and `SagaLeftovers.FailingHoldsNothingIff` looks at all that was asked for.
- SagaCompensation.FailingIsCleanIff: looks at recorded ids; what was never recorded is in `SagaLeftovers`.
- SagaTheorems.CommittedStockBlocksCompensation: one obstacle; `CompensationCompletesIff` has all of them.
- SagaTheorems.CrashAfterRefundBlocksCompensation: likewise.
- OutboxTimely.LeasesAreExclusive: holds for runs in which nobody publishes or marks after its lease has ended; `PublishedMayBeUndone` shows that nothing like it holds otherwise.
- OutboxTimely.TerminalIsFinal: asks for the same; `OutboxFinality.TerminalIsFinalIff` asks for what is needed and no more.
- OutboxTimely.RetriesRunOut: bounds the failures; `OutboxAttempts.AttemptsRunOut` bounds the publishes.
- OutboxAttempts.PollingRunsOut: asks that no mark is lost, because a delivered publish whose mark is lost is repeated without end; of empty polls there is no bound.
- InboxRuns.OneFinalRun: for the Postgres repository it is stated for messages without a retried run; `OverlapIff` shows why.
- InventoryLocks.Serializable: speaks of the committed operations; `InventoryVerdicts.VerdictIsSerialIff` of the answers, refused ones included.
- TokenBucket.ExpiryIsInvisible: one request; `ExpiryNeverShows` has the whole history.
- OrderStory.AnnouncedIff: asks that nobody moves the order to that status by TransitionStatus, which files no announcement; outside the tests nothing calls it.
- Reindex.CatalogService.ReindexAll: asks for four-digit years, without which it may not end (`EndsIffNavigable`), and for finitely many additions while it runs; products are never deleted in this code.
- TokenBucket.AllowedAtMost: capacity and window are at least 1, and Lua's doubles are taken as exact integers, which they are below 2^53.
- InventoryService.ReserveIsExact: the sum per SKU has to fit in 64 bits; `OverflowUnderReserves` shows what happens when it does not.
- CartRuns.CartStore.AddItem: one cart, known to exist; a wrong cart id only yields a not-found reply.
- OrderIdempotency.OneOrderPerKey: transactions on one key are serialised by its row lock, so they are taken one after the other.
