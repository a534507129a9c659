# Verification of the Stars shop

The shop sells Telegram Stars. It takes a buyer's money through TON, YooKassa or a test provider, spends its own
money at Fragment to send the Stars, and refunds what it could not deliver. Bot, payment monitor, purchase worker,
notification worker, admin panel and payment gateway all act on the same order, payment, attempt and outbox rows.
This project models that protocol in Dafny and proves what every interleaving and every crash keeps.

## How the model is built

- `Domain`, `Ledger` and `OrderFlow` are the specification. `Ledger.Rec` holds the rows of one order: the order, its
  payment, its purchase attempt, the `order_status_changed` audit events and the outbox rows. Every database transaction
  of the order service is one function from rows to rows; an exception is a `Raise`, which leaves no trace in the rows.
  A violated unique key is an input (`clash`), and so is a query that missed the other row (`stale`).
- `OrderRepository` and `OrderService` are the same transactions in the form of the source: classes that assign the
  row fields one after the other, undo savepoints, and roll back when a block raises. Each method is proved to do
  exactly what its function in `Ledger` or `OrderFlow` says; the table names those with the most branching. Whole calls
  of `deliver_paid_order`, `reconcile_order` and `request_yookassa_refund` are proved to be runs of `Protocol` with any
  events of other workers between their transactions (`OrderCalls`), so what runs keep, the calls keep.
- `Protocol` puts the transactions of one order among any number of workers. A task is what a call remembers between two
  transactions: a permit to send the purchase, a request to ask about, an answer not yet applied, a refund permit. Events
  are committed transactions, messages to and from providers, deliveries by the provider, and crashes. A tally
  records purchases, approvals, refunds, what the provider did and said about each purchase by its number, and disorder;
  nothing in the rows depends on it.
- `OrderInvariants`, `OrderHistory` and `OrderPersistence` show for each transaction what it keeps, what it appends and
  what it never takes back; `OrderSafety` lifts that to runs. `PurchaseSafety`, `RetrySafety`, `PaymentSafety`, `OrderTheorems`
  and `PaidOnce` prove the theorems about runs of one order; `PurchaseLimits` shows that their hypotheses are needed, with
  runs of a production shop: real payments, and Fragment as the provider (`app/services/container.py:94-103`).
- `StatusEntries` lists for every status the exact circumstances that bring an order into it and the reason of every review,
  said of the event and the rows it meets and not of the transaction that runs; one theorem (`StepEnters`) shows that the
  transactions do just that. `PurchaseOutcomes`, `RefundOutcomes`, `PaymentOutcomes` and `DeliveryDecisions` add what each
  event leaves in the columns, and lift it to runs: completed means delivered, refunded means reported, bought means paid.
- `World` is the whole shop: the database decides whether a unique key is violated, every order's history is a run of
  `Protocol`, and no two orders share an identifier. `Storefront` joins it with `OrderCreation`: the table that the
  creating transaction reads its keys and limits from holds the orders that the workers process.
- `YooConvergence` and `TonSettlement` say where snapshots and transfers lead an order, in runs of `Protocol`.
- `Outbox` and `OutboxRecords`, `AbuseLimiter`, `Pricing` and `MarkupCurve`, `TonPayment`, `FragmentClient`, `OrderCreation`
  and `IdempotencyKey` cover the notification outbox, the rate limiter, the markup curve, TON invoices with the rate and the
  wallet scan, the classification of Fragment's answers, and the creation of orders.

Settings are fixed for a run. Money is in whole units (nanotons, kopecks) and quotes are real numbers. Clocks, random
suffixes, provider answers and the runtime switches of the shop are inputs of the events.

## What came out

- A purchase is sent at most once for every order without an approved balance retry, unconditionally (`AtMostOnePurchase`).
  With retries the bound needs three hypotheses, and for each of them there is a run that breaks the bound without it.
- Retries endanger refunds as well. If a retried purchase is delivered but its answer is lost in a crash, or rolled back
  because of a reused request identifier, the next delivery sends the purchase again; when that one is refused, the buyer
  gets the money back for Stars that arrived (`CrashDeliversRefunded`, `ReusedRequestDeliversRefunded`). Two processes with
  the same token do the same (`TwoProcessesDeliverRefunded`), and so does an approval on an outdated status, because the
  status of a retry is read in an earlier transaction (`app/services/orders.py:1002`) than the one that approves it
  (`OutdatedApprovalDeliversRefunded`). In all four the provider keeps its word about every purchase. Without these four,
  delivery and refund exclude each other however often an order is retried (`RetriedDeliveryExcludesRefund`), and at most
  one purchase delivers (`AtMostOnePurchaseDelivers`).
- A provider that reports success after a cancellation leaves a confirmed payment on a PAYMENT_FAILED order
  (`CancelThenSuccess`). This is the only way a confirmed payment ends in a closed status (`ConfirmedForGood`).
- The daily cap is checked against the clock, but `created_at` is the start of the transaction. A transaction that
  waits for the user's row lock opens a gap: the cap holds in every window of a day less that wait (`DailyCapHolds`), and
  in no longer one (`LongerWindowsOverflow`).
- A reported success completes an order, and nothing else does (`CompletedMeansDelivered`, `ToldDeliveryCompletes`); a refund is
  recorded exactly when it is reported (`RefundedMeansReported`); nothing is bought before it is paid (`BoughtMeansPaid`).
- The final gate in front of the provider never finds a payment problem that the payment paths let through
  (`GateAgrees`); the only objection it can have is a missing username.

## Model

| member | source | states |
|---|---|---|
| PurchaseSafety.AtMostOnePurchase | app/services/orders.py:607-703 | In every run without an approved balance retry, with any workers and crashes: at most one purchase is sent; a worker that may still send is alone and nothing was sent before; either one implies an attempt row |
| PurchaseSafety.RetriesBoundPurchases | app/services/orders.py:1001-1046 | With retries, purchases never exceed one plus the approvals, given the per-order lock, no crash between a purchase and its committed answer, and fresh request identifiers |
| PurchaseLimits.CrashRepeatsRetry | app/services/orders.py:664-703 | For every request of a production shop with the needed username: a crash after a retried purchase, and no other disorder, gives three purchases for one approval, because the token is not consumed by the transaction that reads it |
| PurchaseLimits.TwoProcessesRepeatRetry | app/services/orders.py:599-605 | For every such request: two processes, which do not share the lock, and no other disorder, give three purchases for one approval |
| PurchaseLimits.ReusedRequestRepeatsRetry | app/database/repositories/orders.py:476-482 | For every such request: an answer whose request identifier another order holds is rolled back, and with no other disorder the retry is sent again |
| PurchaseSafety.DeliveryExcludesRefund | app/services/orders.py:1152-1216 | Without approved retries, and if the provider never delivers a purchase it reports as definitely failed, an order whose refund was sent, or that is due one or refunded, never received Stars, whatever the workers do |
| RetrySafety.RetriedDeliveryExcludesRefund | app/services/orders.py:1001-1046 | The same for orders retried any number of times, if deliveries never overlap, no answer is lost in a crash, request identifiers are fresh and every retry is approved while the order waits for the merchant balance |
| RetrySafety.AtMostOnePurchaseDelivers | app/services/orders.py:664-703 | In the same runs the provider delivers at most one of all the purchases sent for an order |
| RetrySafety.RunKeepsAccounted | app/services/orders.py:705-802 | In every state of such runs the provider denied every purchase but the last, and the last one too before the order is treated as failed or another purchase may be sent |
| RetrySafety.RunKeepsGuarded | app/services/orders.py:705-802 | If deliveries never overlap and no approval is outdated, then in every reachable state an order that can still be bought is not being refunded, only one delivery works, and only an order that was bought is treated as failed |
| PurchaseLimits.CrashDeliversRefunded | app/services/orders.py:664-703 | For every request of a production shop with the needed username: one lost answer to a retried purchase, and no other disorder, delivers Stars whose refund was sent, although the provider denied only the other purchases |
| PurchaseLimits.ReusedRequestDeliversRefunded | app/database/repositories/orders.py:476-482 | For every such request: one answer with a reused request identifier, and no other disorder, does so as well |
| PurchaseLimits.OutdatedApprovalDeliversRefunded | app/services/orders.py:1001-1046 | For every request of a production shop with the needed username: one approval on an outdated status, and no other disorder, delivers Stars whose refund was sent, although the provider denied only the other purchases |
| PurchaseLimits.TwoProcessesDeliverRefunded | app/services/orders.py:599-605 | For every such request: two processes with the same token, and no other disorder, do so as well |
| StatusEntries.StepEnters | app/services/orders.py:86-1250 | In every well formed state, any event brings the order into a status it did not have exactly under the circumstances listed for that status, and every review carries the listed reason |
| PurchaseOutcomes.CompletedMeansDelivered | app/services/orders.py:735-777 | In every run a completed order rests on an answer that the provider gave to a worker, that says it succeeded and names a transaction, and that was applied while no other order held it; both rows name that transaction |
| PurchaseOutcomes.ToldDeliveryCompletes | app/services/orders.py:705-777 | Conversely, whoever asked: such an answer to a purchase or a status check, once applied, completes an order that is being bought or reviewed, with attempt succeeded and the transaction on both rows |
| PurchaseOutcomes.DeliveryIsRecorded | app/database/repositories/orders.py:488-526 | The same for the transaction alone, with COMPLETED as the last audit edge and nothing else changed |
| PurchaseOutcomes.TakenIsRecorded | app/database/repositories/orders.py:488-526 | A transaction of another order leads to review with the attempt uncertain and no transaction stored, however late the clash shows |
| PurchaseOutcomes.WaitingIsRecorded | app/services/orders.py:721-734 | A pending answer stores its identifier on both rows once, later ones only mark the attempt as processing, a taken identifier leaves no trace |
| PurchaseOutcomes.FailureIsRecorded | app/services/orders.py:736-802 | Every other answer: lack of balance waits, a definite failure is due a refund, a missing transaction or an open answer is reviewed, with the right attempt status and the code on both rows |
| PurchaseOutcomes.FailureUnderReviewIsRecorded | app/services/orders.py:736-802 | The same for an order that is being reviewed |
| RefundOutcomes.RefundedMeansReported | app/services/orders.py:1152-1250 | In every run a refunded YooKassa order rests on a succeeded refund of its payment and its whole price, reported in answer to the refund or in a notice; any other refunded order on a confirmation |
| RefundOutcomes.AnswerIsNoted | app/services/orders.py:1192-1216 | A matching answer without a clash is stored with identifier, status and amount and refunds the order exactly if it reports success for an order that is due; any other answer changes nothing |
| RefundOutcomes.NoticeIsNoted | app/services/orders.py:1218-1250 | The same for a notice about the stored refund |
| RefundOutcomes.RefundMayStart | app/services/orders.py:1152-1190 | A refund is prepared exactly for a refundable YooKassa payment of an order that is due one and whose attempt, if any, failed |
| PaymentOutcomes.BoughtMeansPaid | app/services/orders.py:259-597 | In every run a purchase is sent only after an event that paid the order: a captured payment of its whole price, the exact transfer seen for long enough, or a confirmed test payment |
| PaymentOutcomes.SnapshotIsRecorded | app/database/repositories/orders.py:332-367 | A snapshot is accepted exactly if it is about this payment and believable; then status, reference, link and refundability are stored, otherwise nothing changes |
| PaymentOutcomes.SightingIsRecorded | app/database/repositories/orders.py:377-409 | The first transfer to the wallet is linked with its hash and amount on both rows |
| PaymentOutcomes.InvoiceIsRecorded | app/database/repositories/orders.py:245-275 | The invoice, wallet, comment and deadline of a new TON payment on both rows |
| PaymentOutcomes.ExpiryIsRecorded | app/services/orders.py:874-905 | Exactly an order that waits for money after its deadline ends, as expired or for review, on both rows |
| PaymentOutcomes.TestAnswerIsRecorded | app/services/orders.py:436-462 | A confirmed test payment pays the order and a refused one fails it, on both rows |
| DeliveryDecisions.DeliveryDecides | app/services/orders.py:607-687 | A delivery buys exactly for a paid order that nothing holds back and for an approved retry, asks exactly about a stored request, and gives up exactly on an order that it can neither ask about nor buy |
| DeliveryDecisions.ReconciliationDecides | app/services/orders.py:817-849 | A reconciliation asks exactly about the stored request of an order that is not completed |
| DeliveryDecisions.ChargeDecides | app/services/orders.py:170-209 | Starting a YooKassa payment hands out the stored link or asks for one payment of the price, and is refused exactly for another provider, a wrong status or a passed deadline |
| DeliveryDecisions.PausedShopBuysNothing | app/services/orders.py:620-630 | While purchases are paused no purchase is sent for an order that had none, over every run |
| PurchaseSafety.RunKeepsPurchase | app/services/orders.py:705-802 | The purchase invariant (permits, tokens, knowledge about the provider, failures and refunds) holds in every reachable state |
| PurchaseSteps.DeliveryOutcomes | app/services/orders.py:607-677 | When a delivery may start, check or give up, and what it then leaves in the attempt |
| PurchaseSteps.ApplyOutcomes | app/services/orders.py:705-802 | What no committed answer does: fail an attempt without a definite failure, or leave one submitting; used by the theorems on retries |
| PurchaseSteps.LiveAnswerCommits | app/services/orders.py:705-802 | While the retry token is live, an answer is only ever refused for a reused request identifier |
| OrderTheorems.ConfirmedForGood | app/services/orders.py:276-345 | A confirmed payment stays confirmed, its mirror field too; the order is never unpaid again, nor closed as unpaid unless success followed a cancellation; no purchase is sent without it |
| OrderTheorems.CancelThenSuccess | app/services/orders.py:315-345 | Once the creation was sent, a success reported after a cancellation confirms the payment of an order that stays PAYMENT_FAILED |
| OrderTheorems.GateAgrees | app/services/orders.py:1317-1352 | In every reachable PAID state the last gate returns no payment code; it objects exactly when a needed username is missing |
| OrderTheorems.LinkedTransactionIsKept | app/services/orders.py:464-597 | An order with a TON hash is never in a created, waiting or closed-unpaid status, and its payment row holds the same hash for good |
| OrderTheorems.StatusTellsAttempt | app/database/repositories/orders.py:448-564 | In every reachable state: PAID has no attempt, statuses past the purchase have one, COMPLETED exactly with a succeeded attempt and reference, STARS_SENDING with a request identifier |
| OrderTheorems.EndsAreFinal | app/domain.py:47-111 | COMPLETED, REFUNDED and PAYMENT_FAILED are never left, a completed attempt is never rewritten, and manual review without an attempt never gets one |
| OrderTheorems.AuditReplaysOrder | app/database/repositories/orders.py:420-446 | The audit events form one unbroken path of allowed edges from CREATED to the status, and the outbox without resends is exactly what that path announces |
| OrderTheorems.OutboxTellsStatuses | app/database/repositories/orders.py:647-666 | Over every run, resends aside, buyers are told of exactly nine statuses and administrators of exactly four and of completions of 1000 Stars or more, once for each entry in the audit log and in its order |
| OrderTheorems.OneChargeOneRefund | app/services/orders.py:170-221 | All payment creations carry one key and amount, all refunds one key, the stored payment and its full amount; a named payment is never renamed |
| OrderTheorems.LaterPersists | app/services/orders.py:259-1250 | Whatever happens later, the facts listed in `Persists` are never taken back |
| PaidOnce.PaidAtMostOnce | app/services/orders.py:343-345 | Over every run and every payment type the audit log has at most one entry into PAID, and an entry implies a confirmed payment |
| PaidOnce.LogIsAppended | app/database/repositories/orders.py:420-446 | No run takes anything back that the audit log said, savepoints and rollbacks included |
| PaymentSafety.RunKeepsPayments | app/services/orders.py:1184-1197 | In every reachable state calls in flight carry the order's own keys and amounts, and a failed YooKassa order is explained by a cancellation |
| World.OrdersAreReached | app/database/models.py:47-58 | Every order of a reachable shop is the result of a run of its own, so each theorem about runs applies to it |
| World.NothingIsShared | app/database/models.py:47-168 | No two orders of a reachable shop share an order number, a payment key, a payment comment or provider reference of any payment type, a TON hash, a provider request, a Stars transaction or a refund |
| Storefront.TableMirrorsOrders | app/database/repositories/orders.py:156-222 | In every run of creations and order events, the table that creations read agrees with the orders: buyer, Stars, key, status, and whether the audit log ever closed the order or left it unpaid |
| Storefront.RequestsShareOrders | app/services/orders.py:86-168 | Whatever happens to the orders meanwhile, two requests are answered with the same order exactly when they agree on all parts of the key, and the order that answers exists and has those terms |
| Storefront.StoreSharesNothing | app/database/models.py:47-58 | No two orders share the order's own idempotency key either, nor anything of NothingIsShared |
| Storefront.LiveOrdersAreLimited | app/services/orders.py:126-130 | A buyer's orders whose audit log shows no closing never outnumber the limit |
| Storefront.LiveStarsAreCapped | app/services/orders.py:131-135 | The daily limit holds for the Stars of the orders whose audit log shows no cancellation, expiry or failure, in every window of a day less the lag |
| OrderSafety.RunKeeps | app/services/orders.py:86-1250 | Every run keeps the rows well formed and replayable and takes no lasting fact back |
| OrderSafety.StepKeeps | app/services/orders.py:86-1250 | Every single event does |
| OrderInvariants.CreatedRowsWellFormed | app/services/orders.py:137-168 | A new order, with its test payment in test mode, satisfies the invariant |
| OrderInvariants.SetupTonKeeps | app/database/repositories/orders.py:245-275 | Setting up a TON payment keeps payment, money and attempt in agreement with the order |
| OrderInvariants.InitiateYooKeeps | app/services/orders.py:170-209 | So does starting or resuming a YooKassa payment |
| OrderInvariants.SnapshotKeeps | app/services/orders.py:259-345 | So does every accepted payment snapshot, late and contradictory ones included |
| OrderInvariants.TonObservationKeeps | app/services/orders.py:464-597 | So does every observation of a TON transfer, with lost savepoints and stale queries |
| OrderInvariants.TestConfirmationKeeps | app/services/orders.py:410-462 | So do both halves of a test confirmation |
| OrderInvariants.ExpiryKeeps | app/services/orders.py:874-905 | So does expiry, which never closes an order with a linked transaction |
| OrderInvariants.CancelKeeps | app/services/orders.py:907-927 | So does cancellation |
| OrderInvariants.DeliveryKeeps | app/services/orders.py:607-677 | So does the first transaction of a delivery |
| OrderInvariants.ResultKeeps | app/services/orders.py:705-802 | So does applying any provider answer |
| OrderInvariants.ReconciliationKeeps | app/services/orders.py:817-849 | So does the first transaction of a reconciliation |
| OrderInvariants.ApprovalKeeps | app/services/orders.py:1026-1043 | So does approving a balance retry |
| OrderInvariants.BeginRefundKeeps | app/services/orders.py:1152-1190 | So does the first transaction of a refund |
| OrderInvariants.FinishRefundKeeps | app/services/orders.py:1199-1216 | So does recording its answer |
| OrderInvariants.SyncRefundKeeps | app/services/orders.py:1218-1250 | So does a refund notice |
| OrderInvariants.MarkRefundedKeeps | app/services/orders.py:1121-1150 | So does the manual confirmation of a refund |
| Ledger.TransitionKeepsChronicle | app/database/repositories/orders.py:420-446 | A transition appends to audit log and outbox exactly what keeps them a replay of the order |
| OrderHistory.SuccessKeepsChronicle | app/database/repositories/orders.py:488-526 | A completion whose savepoint is undone leaves neither an audit event nor an outbox row behind |
| OrderHistory.ResultKeepsChronicle | app/services/orders.py:705-802 | Applying any answer keeps the audit log and the outbox a replay |
| OrderPersistence.SnapshotPersists | app/services/orders.py:276-345 | No snapshot takes back a confirmation, a reference, a hash, a final status or anything of the purchase |
| OrderPersistence.ResultPersists | app/services/orders.py:705-802 | No provider answer takes back a confirmation, a final status or a completed attempt |
| YooConvergence.SnapshotsConverge | app/services/orders.py:299-345 | In every run that does not close the order, with snapshots in any order and multiplicity, refused ones, key clashes, other payments' snapshots, renewed links and lost creations: PAID exactly when an accepted snapshot reported success, PAYMENT_FAILED exactly when one reported a cancellation, PAID entered at most once |
| YooConvergence.OrderDoesNotMatter | app/services/orders.py:259-297 | Two such runs that report the same about the payment end in the same status and confirmation |
| YooConvergence.ForeignIsRefused | app/services/orders.py:267-271 | A snapshot with another order number, amount or currency, succeeded but not paid, or clashing with another order's payment, changes nothing |
| YooConvergence.OtherPaymentIsRefused | app/database/repositories/orders.py:346-349 | Once the provider named the payment, a snapshot of another payment changes nothing |
| YooConvergence.StartListens | app/services/orders.py:197-209 | Starting a payment brings a new order into the state that SnapshotsConverge starts from |
| YooConvergence.ReplaysMoveNothing | app/services/orders.py:276-277 | Once the payment is confirmed, no snapshot moves status, audit log, outbox or attempt |
| YooConvergence.SuccessSettlesUnlessFailed | app/services/orders.py:327-345 | An accepted success leaves the order unpaid or closed exactly when it had already failed |
| Outbox.OutboxIsSafe | app/database/repositories/orders.py:725-759 | Delivered or abandoned but not both, settled rows never change, abandoned exactly at the retry limit and not before the whole backoff has passed |
| OutboxRecords.RowsTellReports | app/database/repositories/orders.py:725-759 | Over every run: delivered exactly when a worker that held the claim reported success, at that time; attempts is the number of failures such workers reported; abandoned exactly with the failure that reaches the limit; due again after the smaller of 2 to that number and the longest backoff |
| OutboxRecords.ClaimTakesWaitingRows | app/database/repositories/orders.py:678-723 | A claim takes a row exactly if it is unsettled, due, unlocked and unclaimed for five minutes and fewer than the limit of such rows come before it |
| OutboxRecords.PowersMultiply | app/database/repositories/orders.py:757 | The backoff doubles: powers of two multiply |
| Outbox.LostClaimFinishesNothing | app/database/repositories/orders.py:736-745 | A worker whose claim was taken over or given back changes nothing when it finishes |
| Outbox.DueAreTheFirst | app/database/repositories/orders.py:684-699 | A claim takes only due, unlocked rows, the earliest first, each once, and leaves one out only when the limit is reached |
| Outbox.NotificationTable.ClaimNotifications | app/database/repositories/orders.py:678-723 | The claiming loop takes exactly those rows and stamps only them |
| Outbox.NotificationTable.FinishNotification | app/database/repositories/orders.py:725-759 | Finishing changes the one row the worker still holds: delivered at once on success, otherwise one attempt more and retried with backoff or abandoned |
| Outbox.NotifyAdmins | app/services/order_worker.py:164-188 | Succeeds exactly when some administrator other than the buyer was reached, or there is none |
| AbuseLimiter.AbuseGuard.Allow | app/services/abuse.py:16-36 | On the object, for a clock that does not go back: admitted exactly when the history of the key has fewer than the limit in the window; exactly then the history grows by this request, other keys keep theirs, and no window ever holds more than a fixed limit |
| AbuseLimiter.CountIsCardinality | app/services/abuse.py:20-29 | The count of the window is the number of admissions in it |
| AbuseLimiter.DecidesLikeHistory | app/services/abuse.py:16-36 | On clocks that never go back, a request is admitted exactly when fewer than the limit of all earlier admissions lie in the window |
| AbuseLimiter.NoWindowOverflows | app/services/abuse.py:16-36 | With a fixed limit no window of the configured length, ending at any time, holds more admissions |
| Pricing.MarkupNeverRises | app/services/customer_pricing.py:171-227 | A bigger order never has a bigger markup, for any thresholds, any increasing logarithm and after rounding |
| Pricing.MarkupStaysInside | app/services/customer_pricing.py:171-210 | The markup stays between the smallest and the largest configured one, and on the right side of the standard one |
| Pricing.MarkupAtThresholds | app/services/customer_pricing.py:171-210 | At the smallest order and at both thresholds the markup is exactly the configured one |
| MarkupCurve.MarkupIsLogarithmic | app/services/customer_pricing.py:212-227 | Within a segment, and within the half cent of the rounding, the markup has come down by the share by which the order size has grown on the logarithmic scale |
| MarkupCurve.EqualRatiosCountTheSame | app/services/customer_pricing.py:221-223 | For a logarithm that turns products into sums, equal ratios of order sizes lower the markup by the same amount within one cent |
| MarkupCurve.OppositeOrdersAddUp | app/services/customer_pricing.py:221-227 | Two orders that multiply to the product of the thresholds have markups that sum to the two configured ones within one cent |
| MarkupCurve.MarkupOutsideSegments | app/services/customer_pricing.py:171-210 | Outside the segments the markup is the configured one |
| MarkupCurve.CentsAreNearest | app/services/customer_pricing.py:227 | Rounding goes to the nearest hundredth, halves away from zero |
| Pricing.SegmentFalls | app/services/customer_pricing.py:212-227 | Within a segment the rounded interpolation never rises and stays between the configured markups |
| TonPayment.InvoiceIsLeast | app/services/customer_pricing.py:89-118 | The invoice is the least whole number of nanotons that, at the rate unless the quote is in TON, covers unit price times Stars plus the markup; a quote is refused exactly if it is out of range, expired, in another currency, free or too expensive |
| TonSettlement.InvoicedOrder | app/services/orders.py:464-597 | In every run with one transfer, seen any number of times and with anything but a close or a review between: the payment is confirmed exactly when route, amount and time fit and the transfer was seen a third time once old enough; otherwise it is reviewed for exactly what is wrong |
| TonSettlement.ExactlyOneAmountSettles | app/services/ton_payment.py:97-99 | From quote to confirmation, over every such run: the one paying amount covers the quoted total and one nanoton less does not; less is underpaid, more is overpaid |
| TonPayment.TonPaymentService.FindIncomingPayment | app/services/ton_payment.py:101-146 | The scan reports the first transfer that is late enough and carries the comment, raises when that one lacks amount or hash, and finds nothing only when there is none |
| TonPayment.ReportTellsTransfer | app/services/ton_payment.py:126-145 | A transfer is reported exactly if it has an amount and a hash, with its amount, time and hash and the scanned wallet |
| Strings.StripTrims | app/services/ton_payment.py:130 | Comments are compared without the white space around them, and with nothing else changed |
| TonPayment.ReportsAreOnRoute | app/services/ton_payment.py:139-145 | What the scan reports is on the route of every order that pays into the scanned wallet |
| TonPayment.TonPaymentService.GetTonUsdRate | app/services/ton_payment.py:59-95 | A fresh cached rate is used again; otherwise the first source with a plausible rate decides and is cached, unless one before it answers with something that is no number, which raises; only a new rate touches the cache |
| FragmentClient.StartIsClassified | app/services/fragment_client.py:273-317 | An answer to a purchase has exactly one kind; once sent, only a definitive error code makes it a failure; pending always has a request identifier |
| FragmentClient.StatusIsClassified | app/services/fragment_client.py:319-385 | A status answer is a failure exactly when it says so or raises a definitive code, a success exactly when it completed with a transaction and does not deny it |
| FragmentClient.PendingNamesRequest | app/services/fragment_client.py:301-317 | A pending answer carries exactly the request identifier of the response |
| FragmentClient.SuccessNamesTransaction | app/services/fragment_client.py:345-370 | A success carries the hash of the transaction, else its identifier, else the invoice |
| FragmentClient.RaisedCodeIsKept | app/services/fragment_client.py:388-401 | Of a sent purchase exactly the two balance codes count as lack of balance; other definitive codes are kept |
| FragmentClient.RefusalIsNamed | app/providers/fragment_stars.py:22-49 | A purchase that is not sent carries the first reason for that |
| FragmentClient.FailureKeepsCode | app/services/fragment_client.py:371-379 | A failed request carries the code of its result |
| FragmentClient.ExceptionIsDefinitive | app/services/fragment_client.py:388-401 | An exception is uncertain exactly when its code is not definitive, and then never a balance code |
| IdempotencyKey.DecodeKey | app/services/orders.py:1384-1396 | Splitting a key at its first four colons gives back buyer, kind, recipient, Stars and scope |
| IdempotencyKey.KeyIsInjective | app/services/orders.py:1384-1396 | Two requests have the same key exactly when they agree on all five |
| OrderCreation.SameRequestSameOrder | app/services/orders.py:86-168 | Over any run of creations, lost insert races included, two answers name the same order exactly when the requests agree |
| OrderCreation.CreationAnswers | app/services/orders.py:86-168 | A repeated request in order is answered with its order whatever was switched off since; a new one is refused exactly for maintenance, a block, either limit or a taken number, and otherwise becomes the last row with the right columns |
| OrderCreation.OpenOrdersAreCounted | app/database/repositories/orders.py:156-161 | The first limit counts exactly the buyer's orders in the ten open statuses |
| OrderCreation.DailyStarsGrow | app/database/repositories/orders.py:163-175 | The second adds up exactly the Stars of the buyer's orders since the time that are not cancelled, expired or failed |
| OrderCreation.DailyCapHolds | app/services/orders.py:131-135 | In every closed window of a day less the lag of transactions, a user's Stars that were never cancelled, expired or failed stay within the limit |
| OrderCreation.LongerWindowsOverflow | app/database/repositories/orders.py:163-175 | In any longer window two orders that together exceed the limit can be created |
| OrderCreation.OpenOrdersAreLimited | app/services/orders.py:126-130 | A user's orders that were never closed never outnumber the limit |
| OrderCreation.OrderTable.Create | app/services/orders.py:86-168 | The method does what the specification of the transaction says, and an exception changes nothing |
| OrderCreation.OrderTable.Insert | app/database/repositories/orders.py:177-222 | A violated key undoes the insert and answers with the row that won |
| OrderRepository.Repository.Transition | app/database/repositories/orders.py:420-446 | Writes status, audit event and outbox rows as specified, or raises and changes nothing |
| OrderRepository.Repository.RecordDetection | app/database/repositories/orders.py:377-409 | Links the transaction, or refuses it and leaves the rows as they were, also when only the savepoint catches the duplicate |
| OrderRepository.Repository.MarkQueued | app/database/repositories/orders.py:476-482 | Stores the request identifier on both rows and moves to STARS_SENDING, or raises |
| OrderRepository.Repository.MarkSucceeded | app/database/repositories/orders.py:488-526 | Completes the order, or undoes the whole savepoint and sends it to review when the transaction is taken |
| OrderService.Service.RecordTonObservation | app/services/orders.py:464-597 | Committed as specified or rolled back without a trace |
| OrderService.Service.ApplySnapshot | app/services/orders.py:259-297 | Committed as specified or rolled back without a trace |
| OrderService.Service.BeginDelivery | app/services/orders.py:607-677 | Committed as specified or rolled back without a trace, with what the delivery does next |
| OrderService.Service.ApplyResult | app/services/orders.py:705-802 | Committed as specified or rolled back without a trace |
| OrderService.Service.DeliverPaidOrder | app/services/orders.py:607-703 | A whole call, with any reply or exception of the provider and any events of other workers meanwhile, leaves the rows that this run of the protocol leaves, keeps them sound and takes no lasting fact back |
| OrderService.Service.ReconcileOrder | app/services/orders.py:817-853 | The same for a whole reconciliation |
| OrderService.Service.RequestRefund | app/services/orders.py:1152-1216 | The same for a whole refund, with any answer of YooKassa |
| OrderCalls.DeliveryIsRun | app/services/orders.py:607-703 | Begin, call, answer and apply are a run of the protocol in each of the four cases of a delivery, whatever the others do between them; the answer is applied to the rows as they are by then |
| OrderCalls.ReconciliationIsRun | app/services/orders.py:817-853 | So are begin, status check and apply of a reconciliation |
| OrderCalls.RefundIsRun | app/services/orders.py:1152-1216 | So are preparation, call and record of a refund, mismatching answers included |
| OrderService.Service.ApproveBalanceRetry | app/services/orders.py:1026-1043 | Committed as specified or rolled back without a trace |
| OrderService.Service.BeginRefund | app/services/orders.py:1152-1190 | Committed as specified, with the refund to send |

## Left out

- RetriesBoundPurchases: bounds the purchases by the approvals under its three hypotheses only; PurchaseLimits shows that without any one of them the code does not keep the bound.
- RetriedDeliveryExcludesRefund: asks for deliveries that do not overlap, answers that are committed, fresh request identifiers and approvals on the current status; PurchaseLimits shows that without any one of the four the code delivers refunded Stars.
- DailyCapHolds: the window is a day less the longest time between a transaction's start and its look at the clock, because a longer window is not kept.
- NothingIsShared: the attempt's own key is derived from its order; the order's own key is the matter of StoreSharesNothing.
- SnapshotsConverge: a snapshot of another payment is allowed for only after an accepted one named this payment, because the first accepted one names it; expiry, reviews and purchases end the stretch of a run it speaks of.
- InvoicedOrder: speaks of runs in which nobody cancels, reviews, reconciles or, before the deadline, expires the order; what those do is said by the theorems about every run.
- ExactlyOneAmountSettles: decimal arithmetic with 28 digits is replaced by real numbers, with the explicit roundings kept.
- MarkupNeverRises: assumes of the logarithm only that it is strictly increasing and zero at one; the last digit of decimal `ln` is not modelled.
- FragmentError: the order in which the definitive codes are searched in free text is that of the list, while the source iterates over an unordered set; every choice is definitive.
- Rows are values in the fields of the repository, so two references to the same row object and the identity map of the session are not modelled.
- Only `order_status_changed` audit events are kept; other audit events, failure reasons, timestamps for display and the columns `paid`, `provider_status` and `last_webhook_*` decide nothing.
- A version 5 UUID is represented by the name it is computed from, so distinct names are taken to give distinct keys.
- A provider's payment identifier is assumed not to begin with `pending:`, and column lengths and the truncation of codes to 64 characters are not modelled in the order rows.
- Settings do not change during a run; a database written in test mode is not opened in production mode.
- The loops of `process_recoverable_orders` and of the payment monitor choose only which events happen next, and every choice is a run; batch limits and the late scan window only restrict it.
- Liveness: nothing says that a paid order is eventually delivered or an outbox row eventually sent.
- HTTP, SDK and database drivers, migrations, bot handlers, message texts, the admin panel, login and statistics.
- `price_options` and `quote_option` beyond the markup they apply, and the exchange rate of the rouble.
