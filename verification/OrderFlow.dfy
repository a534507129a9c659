/** The transactions of the order service, each as one function of the rows it locks. */
module OrderFlow {
  import opened Domain
  import opened Ledger

  datatype Settings = Settings(
    testMode: bool,
    fragmentMode: bool,
    queuedProvider: bool,
    minStars: int,
    maxStars: int,
    confirmationSeconds: int)

  // ---------------------------------------------------------------- TON payments

  datatype Sighting = Sighting(
    hash: string,
    amount: int,
    timestamp: int,
    destination: string,
    currency: string,
    network: string)

  /** A scan reports a transaction only together with its hash. */
  type Observation = s: Sighting | s.hash != "" witness Sighting("h", 0, 0, "", "", "")

  /** `text.upper() == "TON"` for ASCII text. */
  predicate NamesTon(text: string) {
    |text| == 3 && text[0] in "tT" && text[1] in "oO" && text[2] in "nN"
  }

  predicate OnRoute(order: Order, seen: Sighting) {
    && order.invoice.Some? && order.invoice.value.destination == seen.destination
    && NamesTon(seen.currency) && NamesTon(seen.network)
  }

  predicate AwaitsTon(r: Rec) {
    && r.order.payType == Some(TonPay)
    && r.order.invoice.Some?
    && (|| r.order.status.WaitingForPayment? || r.order.status.PaymentDetected?
        || r.order.status.PaymentConfirming? || r.order.status.PaymentExpired?
        || r.order.status.Cancelled?)
  }

  function Review(r: Rec, code: Code): Result<Rec> {
    Transition(r, ManualReview, Some(code))
  }

  function ReviewPayment(r: Rec, code: Code): Result<Rec> {
    Transition(SetPaymentStatus(r, PayManualReview), ManualReview, Some(code))
  }

  /** Why a linked transaction cannot settle the order. */
  function TonProblem(r: Rec, seen: Sighting): Option<Code>
    requires r.order.invoice.Some?
  {
    var amount := r.order.invoice.value.amount;
    if seen.amount < amount then Some(PaymentUnderpaid)
    else if seen.amount > amount then Some(PaymentOverpaid)
    else if r.order.status.PaymentExpired? || r.order.status.Cancelled? then Some(LatePayment)
    else if r.order.expiresAt.Some? && seen.timestamp > r.order.expiresAt.value then Some(LatePayment)
    else None
  }

  /** Each sighting of the settling transaction moves the order one step. */
  function ConfirmTon(cfg: Settings, r: Rec, seen: Sighting, now: int): Result<Rec> {
    if r.order.status.WaitingForPayment? then Transition(r, PaymentDetected, None)
    else if r.order.status.PaymentDetected? then
      var confirming :- Transition(r, PaymentConfirming, None);
      Ok(SetPaymentStatus(confirming, PayConfirming))
    else if now - seen.timestamp < cfg.confirmationSeconds then Ok(r)
    else Transition(SetPaymentStatus(r, PaySucceeded), Paid, None)
  }

  /** What happens once the transaction is linked to the order. */
  function SettleTon(cfg: Settings, r: Rec, seen: Sighting, now: int): Result<Rec>
    requires r.order.invoice.Some?
  {
    var problem := TonProblem(r, seen);
    if problem.Some? then ReviewPayment(r, problem.value) else ConfirmTon(cfg, r, seen, now)
  }

  function RecordTonObservation(cfg: Settings, r: Rec, seen: Sighting, now: int, clash: bool, stale: bool): Result<Rec> {
    if !AwaitsTon(r) then Ok(r)
    else if !OnRoute(r.order, seen) then ReviewPayment(r, PaymentRouteMismatch)
    else if !Truthy(r.order.tonHash) then
      var linked :- RecordDetection(r, seen.hash, seen.amount, clash, stale);
      if linked.None? then Review(r, DuplicatePaymentTransaction)
      else SettleTon(cfg, linked.value, seen, now)
    else if r.order.tonHash.value != seen.hash then Review(r, MultiplePaymentTransactions)
    else SettleTon(cfg, r, seen, now)
  }

  // ---------------------------------------------------------------- YooKassa payments

  datatype SnapshotStatus = SnapPending | SnapWaitingForCapture | SnapSucceeded | SnapCanceled

  datatype Snapshot = Snapshot(
    paymentId: string,
    status: SnapshotStatus,
    amount: int,
    currency: string,
    orderNumber: string,
    confirmationUrl: Option<string>,
    paid: bool,
    refundable: bool)

  /** The link handed to the buyer again, or the POST that has to be made first. */
  datatype ChargePlan = Reuse(url: string) | Charge(key: Uuid, amount: int)

  function InitiateYoo(r: Rec, now: int, expiresAt: int): Result<(Rec, ChargePlan)> {
    if r.order.payType.Some? && !r.order.payType.value.YooPay? then Raise(Rejected)
    else if !r.order.status.Created? && !r.order.status.WaitingForPayment? then Raise(Rejected)
    else if r.order.expiresAt.Some? && r.order.expiresAt.value <= now then Raise(Rejected)
    else if r.payment.Some? && Truthy(r.payment.value.confirmationUrl) then
      Ok((r, Reuse(r.payment.value.confirmationUrl.value)))
    else
      var key := if r.payment.Some? && r.payment.value.terms.idempotencyKey.Some?
                 then r.payment.value.terms.idempotencyKey.value
                 else ChargeKey(r.order.info.number);
      var ready :- SetupYooPayment(r, key, expiresAt);
      Ok((ready, Charge(key, r.order.info.rubAmount)))
  }

  /** Moves the order one step when it stands in `source`. */
  function Advance(r: Rec, source: OrderStatus, target: OrderStatus): Result<Rec> {
    if r.order.status == source then Transition(r, target, None) else Ok(r)
  }

  function TransitionYooStatus(r: Rec, snap: Snapshot): Result<Rec> {
    match snap.status
    case SnapPending => Ok(SetPaymentStatus(r, PayPending))
    case SnapWaitingForCapture =>
      var detected :- Advance(r, WaitingForPayment, PaymentDetected);
      var confirming :- Advance(detected, PaymentDetected, PaymentConfirming);
      Ok(SetPaymentStatus(confirming, PayWaitingForCapture))
    case SnapCanceled =>
      var confirming :- Advance(r, PaymentDetected, PaymentConfirming);
      var marked := SetPaymentStatus(confirming, PayCanceled);
      if marked.order.status.WaitingForPayment? || marked.order.status.PaymentConfirming?
      then Transition(marked, PaymentFailed, Some(YooKassaPaymentCanceled))
      else Ok(marked)
    case SnapSucceeded =>
      if !snap.paid then Raise(Rejected)
      else if r.order.status.PaymentExpired? || r.order.status.Cancelled? then
        Transition(SetPaymentStatus(r, PaySucceeded), ManualReview, Some(YooKassaLatePayment))
      else
        var detected :- Advance(r, WaitingForPayment, PaymentDetected);
        var confirming :- Advance(detected, PaymentDetected, PaymentConfirming);
        Advance(SetPaymentStatus(confirming, PaySucceeded), PaymentConfirming, Paid)
  }

  predicate IsYoo(r: Rec) {
    r.payment.Some? && r.payment.value.terms.provider.YooKassa?
  }

  /** `clash` says that another payment row already holds the provider's payment identifier. */
  function ApplySnapshot(r: Rec, snap: Snapshot, clash: bool): Result<Rec> {
    if snap.orderNumber != r.order.info.number then Raise(Rejected)
    else if snap.currency != "RUB" || snap.amount != r.order.info.rubAmount then Raise(Rejected)
    else if !IsYoo(r) then Raise(Rejected)
    else if r.payment.value.status.PaySucceeded? && !snap.status.SnapSucceeded? then Raise(Rejected)
    else if r.payment.value.reference.ProviderReference? && r.payment.value.reference.id != snap.paymentId then
      Raise(Rejected)
    else if clash then Raise(IntegrityError)
    else TransitionYooStatus(Synced(r, snap), snap)
  }

  function Synced(r: Rec, snap: Snapshot): Rec
    requires r.payment.Some?
  {
    var payment := r.payment.value;
    r.(order := r.order.(paymentId := Some(snap.paymentId)),
       payment := Some(payment.(reference := ProviderReference(snap.paymentId),
                                confirmationUrl := if Truthy(snap.confirmationUrl) then snap.confirmationUrl
                                                   else payment.confirmationUrl,
                                refundable := snap.refundable)))
  }

  // ---------------------------------------------------------------- test payments

  function BeginTestConfirmation(cfg: Settings, r: Rec): Result<(Rec, bool)> {
    if !cfg.testMode then Raise(Rejected)
    else if !r.order.status.WaitingForPayment? || !Truthy(r.order.paymentId) then Ok((r, false))
    else
      var detected :- Transition(r, PaymentDetected, None);
      var confirming :- Transition(SetPaymentStatus(detected, PayDetected), PaymentConfirming, None);
      Ok((SetPaymentStatus(confirming, PayConfirming), true))
  }

  function EndTestConfirmation(r: Rec, succeeded: bool): Result<Rec> {
    if !r.order.status.PaymentConfirming? then Ok(r)
    else if !succeeded then Transition(SetPaymentStatus(r, PayFailed), PaymentFailed, Some(TestPaymentFailed))
    else Transition(SetPaymentStatus(r, PaySucceeded), Paid, None)
  }

  // ---------------------------------------------------------------- closing and reviewing

  function ExpireIfNeeded(r: Rec, now: int): Result<Rec> {
    if !r.order.status.WaitingForPayment? && !r.order.status.PaymentDetected? && !r.order.status.PaymentConfirming? then
      Ok(r)
    else if r.order.expiresAt.None? || r.order.expiresAt.value > now then Ok(r)
    else if r.order.status.WaitingForPayment? then
      Transition(SetPaymentStatus(r, PayExpired), PaymentExpired, None)
    else ReviewPayment(r, PaymentConfirmationLost)
  }

  /** The buyer's cancellation; the administrator's differs only in raising where this one does nothing. */
  function CancelOrder(r: Rec): Result<Rec> {
    if !r.order.status.Created? && !r.order.status.WaitingForPayment? then Ok(r)
    else if IsYoo(r) then Ok(r)
    else if Truthy(r.order.tonHash) then Ok(r)
    else Transition(r, Cancelled, None)
  }

  function AdminReview(r: Rec): Result<Rec> {
    if r.order.status.Completed? || r.order.status.Refunded? || r.order.status.PaymentFailed? then Raise(Rejected)
    else Review(r, AdminManualReview)
  }

  // ---------------------------------------------------------------- purchase

  /** The last gate in front of the provider. */
  function PurchaseValidationError(cfg: Settings, r: Rec): Option<Code> {
    var info := r.order.info;
    if info.stars < cfg.minStars || info.stars > cfg.maxStars then Some(StarsAmountInvalid)
    else if info.recipient.None? || info.recipient.value <= 0 then Some(RecipientValidationFailed)
    else if info.kind.SelfOrder? && info.recipient.value != info.buyer then Some(RecipientValidationFailed)
    else if cfg.fragmentMode && (if info.kind.SelfOrder? then info.buyerUsername else info.recipientUsername) == "" then
      Some(RecipientUsernameMissing)
    else if r.payment.None? then Some(PaymentRecordMissing)
    else if !r.payment.value.status.PaySucceeded? || r.order.paymentStatus != Some(PaySucceeded) then
      Some(PaymentNotConfirmed)
    else if r.order.payType == Some(TonPay) then
      var payment := r.payment.value;
      if !Truthy(payment.txHash) || payment.txHash != r.order.tonHash then Some(PaymentTransactionMismatch)
      else if r.order.invoice.None? || payment.received != Some(r.order.invoice.value.amount) then
        Some(PaymentAmountMismatch)
      else if || payment.terms.destination != Some(r.order.invoice.value.destination)
              || !NamesTon(payment.terms.currency) || !NamesTon(payment.terms.network)
      then Some(PaymentRouteMismatch)
      else None
    else None
  }

  /** What a delivery does after its first transaction. */
  datatype Next = Stop | Start | Check(requestId: string) | GiveUp(code: Code)

  predicate HoldsRetryToken(attempt: Attempt) {
    attempt.requestId.None? && attempt.status.Submitting? && attempt.errorCode == Some(BalanceRetryApproved)
  }

  function NextCall(cfg: Settings, attempt: Attempt, isNew: bool): Next {
    if Truthy(attempt.requestId) then
      if cfg.queuedProvider then Check(attempt.requestId.value) else GiveUp(ProviderReconciliationUnavailable)
    else if !isNew then GiveUp(PurchaseResponseNotPersisted)
    else Start
  }

  /** The first transaction of a delivery; `hold` is a paused shop or the test-mode delay. */
  function BeginDelivery(cfg: Settings, r: Rec, hold: bool): Result<(Rec, Next)> {
    if r.order.status.Paid? then
      if hold then Ok((r, Stop))
      else
        var problem := PurchaseValidationError(cfg, r);
        if problem.Some? then
          var reviewed :- Review(r, problem.value);
          Ok((reviewed, Stop))
        else
          var (prepared, isNew) := CreateAttempt(r);
          var processing :- Transition(prepared, PurchaseProcessing, None);
          Ok((processing, NextCall(cfg, processing.attempt.value, isNew)))
    else if r.order.status.PurchaseProcessing? || r.order.status.StarsSending? then
      if r.attempt.None? then
        var reviewed :- Review(r, PurchaseAttemptMissing);
        Ok((reviewed, Stop))
      else Ok((r, NextCall(cfg, r.attempt.value, HoldsRetryToken(r.attempt.value))))
    else Ok((r, Stop))
  }

  datatype PurchaseResult = PurchaseResult(
    succeeded: bool,
    pending: bool,
    uncertain: bool,
    txId: Option<string>,
    requestId: Option<string>,
    code: Option<Code>)

  function UncertainResult(code: Code): PurchaseResult {
    PurchaseResult(false, false, true, None, None, Some(code))
  }

  predicate IsQueued(res: PurchaseResult) {
    res.pending && Truthy(res.requestId)
  }

  /** Applying the answer to these rows stores its request identifier. */
  predicate StoresRequest(r: Rec, res: PurchaseResult) {
    IsQueued(res) && (r.order.status.PurchaseProcessing? || r.order.status.ManualReview?)
  }

  function ResultCode(res: PurchaseResult): Code {
    if res.code.Some? then res.code.value else PurchaseFailedCode
  }

  /** A result the service takes as proof that no Stars were and will be sent. */
  predicate IsDefiniteFailure(res: PurchaseResult) {
    !IsQueued(res) && !res.succeeded && (!res.uncertain || IsBalanceCode(ResultCode(res)))
  }

  /**
   The transaction that applies a provider answer. `clash` says that another order holds the answer's
   request identifier or transaction; `stale` that the preceding query missed it.
   */
  function ApplyResult(r: Rec, res: PurchaseResult, clash: bool, stale: bool): Result<Rec> {
    if r.attempt.None? then Raise(MissingRow)
    else if r.order.status.Completed? then Ok(r)
    else if IsQueued(res) then
      if r.order.status.PurchaseProcessing? || r.order.status.ManualReview? then
        MarkQueued(r, r.attempt.value, res.requestId.value, clash)
      else Ok(r.(attempt := Some(r.attempt.value.(status := Processing))))
    else if res.succeeded then
      if !Truthy(res.txId) then MarkFailed(r, r.attempt.value, PurchaseReferenceMissing, true)
      else
        var sending :- Advance(r, PurchaseProcessing, StarsSending);
        MarkSucceeded(sending, sending.attempt.value, res.txId.value, clash, stale)
    else if IsBalanceCode(ResultCode(res)) then MarkWaitingForBalance(r, r.attempt.value, ResultCode(res))
    else MarkFailed(r, r.attempt.value, ResultCode(res), res.uncertain)
  }

  /** The first transaction of a reconciliation, with the request identifier to ask about if there is one. */
  function BeginReconciliation(cfg: Settings, r: Rec): Result<(Rec, Option<string>)> {
    if r.order.status.Completed? then Ok((r, None))
    else if !cfg.queuedProvider || r.attempt.None? || !Truthy(r.attempt.value.requestId) then
      var reviewed :- Review(r, ReconciliationDataMissing);
      Ok((reviewed, None))
    else Ok((r, r.attempt.value.requestId))
  }

  /** The administrator's approval of another try after the merchant balance was refilled. */
  function ApproveBalanceRetry(r: Rec): Result<Rec> {
    if r.attempt.None? || Truthy(r.attempt.value.requestId) then Raise(Rejected)
    else
      Transition(r.(attempt := Some(r.attempt.value.(status := Submitting, errorCode := Some(BalanceRetryApproved)))),
                 PurchaseProcessing, None)
  }

  // ---------------------------------------------------------------- refunds

  datatype Refund = Refund(id: string, paymentId: string, status: RefundStatus, amount: int, currency: string)

  datatype RefundCall = RefundCall(paymentId: Reference, amount: int, key: Uuid)

  /** An attempt in one of these states may still deliver Stars. */
  predicate BlocksRefund(status: AttemptStatus) {
    status.Submitting? || status.Queued? || status.Processing? || status.AttemptSucceeded? || status.Uncertain?
  }

  function BeginRefund(r: Rec): Result<(Rec, RefundCall)> {
    if !IsYoo(r) then Raise(Rejected)
    else if !r.order.status.RefundRequired? then Raise(Rejected)
    else if r.attempt.Some? && BlocksRefund(r.attempt.value.status) then Raise(Rejected)
    else if !r.payment.value.status.PaySucceeded? || !r.payment.value.refundable then Raise(Rejected)
    else
      var payment := r.payment.value;
      var key := if payment.refund.key.Some? then payment.refund.key.value else RefundKey(r.order.info.number);
      Ok((r.(payment := Some(payment.(refund := payment.refund.(key := Some(key))))),
          RefundCall(payment.reference, payment.terms.expected, key)))
  }

  /** A refund the provider reports is accepted only for the stored payment and its full amount. */
  predicate RefundMatches(reference: Reference, amount: int, refund: Refund) {
    reference == ProviderReference(refund.paymentId) && refund.amount == amount && refund.currency == "RUB"
  }

  function FinishRefund(r: Rec, refund: Refund, clash: bool): Result<Rec> {
    if r.payment.None? then Raise(MissingRow)
    else if clash then Raise(IntegrityError)
    else
      var columns := r.payment.value.refund.(id := Some(refund.id), status := Some(refund.status),
                                             amount := Some(refund.amount));
      var noted := r.(payment := Some(r.payment.value.(refund := columns)));
      if refund.status.RefundSucceeded? then Advance(noted, RefundRequired, Refunded) else Ok(noted)
  }

  function SyncRefund(r: Rec, refund: Refund): Result<Rec> {
    if r.payment.None? || r.payment.value.refund.id != Some(refund.id) then Raise(Rejected)
    else if !RefundMatches(r.payment.value.reference, r.payment.value.terms.expected, refund) then Raise(Rejected)
    else
      var columns := r.payment.value.refund.(status := Some(refund.status), amount := Some(refund.amount));
      var noted := r.(payment := Some(r.payment.value.(refund := columns)));
      if refund.status.RefundSucceeded? then Advance(noted, RefundRequired, Refunded) else Ok(noted)
  }

  function MarkRefunded(r: Rec): Result<Rec> {
    if !r.order.status.RefundRequired? then Raise(Rejected)
    else if IsYoo(r) && r.payment.value.refund.status != Some(RefundSucceeded) then Raise(Rejected)
    else Transition(r, Refunded, None)
  }
}
