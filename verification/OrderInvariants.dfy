/** What every committed transaction keeps about the rows of one order. */
module OrderInvariants {
  import opened Domain
  import opened Ledger
  import opened OrderFlow

  /** The checks that creation makes before the order row is inserted. */
  predicate ValidRequest(cfg: Settings, info: OrderInfo) {
    && cfg.minStars <= info.stars <= cfg.maxStars
    && info.recipient.Some? && info.recipient.value > 0
    && (info.kind.SelfOrder? ==> info.recipient.value == info.buyer)
  }

  function NewOrder(info: OrderInfo): Rec {
    Rec(Order(info, Created, None, None, None, None, None, None, None, None, None), None, None, [], [])
  }

  /** The rows that the creating transaction commits; in test mode it sets up the payment as well. */
  function CreatedRows(cfg: Settings, info: OrderInfo, testPaymentId: string): Rec {
    if cfg.testMode then
      var ready := SetupTestPayment(NewOrder(info), testPaymentId);
      if ready.Ok? then ready.value else NewOrder(info)
    else NewOrder(info)
  }

  predicate Confirmed(r: Rec) {
    r.payment.Some? && r.payment.value.status.PaySucceeded?
  }

  predicate Unpaid(status: OrderStatus) {
    status.Created? || status.WaitingForPayment? || status.PaymentDetected? || status.PaymentConfirming?
  }

  predicate ClosedUnpaid(status: OrderStatus) {
    status.PaymentExpired? || status.PaymentFailed? || status.Cancelled?
  }

  /** Statuses that only a confirmed payment leads to. */
  predicate PastPayment(status: OrderStatus) {
    || status.Paid? || status.PurchaseProcessing? || status.StarsSending? || status.Completed?
    || status.RefundRequired? || status.Refunded? || status.WaitingForMerchantBalance?
  }

  /** Statuses that only an order with a purchase attempt has. */
  predicate PastPurchase(status: OrderStatus) {
    PastPayment(status) && !status.Paid?
  }

  predicate ProviderOf(payType: PayType, provider: PaymentProvider) {
    match payType
    case TestPay => provider.TestProvider?
    case TonPay => provider.Toncenter?
    case YooPay => provider.YooKassa?
  }

  /** The payment row repeats what setting up the payment fixed. */
  predicate TermsFit(cfg: Settings, info: OrderInfo, payType: PayType, invoice: Option<Invoice>, terms: PaymentTerms) {
    && ProviderOf(payType, terms.provider)
    && (cfg.testMode <==> payType.TestPay?)
    && (payType.TonPay? ==>
          && invoice.Some? && terms.destination == Some(invoice.value.destination)
          && NamesTon(terms.currency) && NamesTon(terms.network))
    && (payType.YooPay? ==>
          terms.idempotencyKey == Some(ChargeKey(info.number)) && terms.expected == info.rubAmount)
    && (!payType.YooPay? ==> terms.idempotencyKey.None?)
  }

  /** The payment row belongs to the order. */
  predicate PaymentFits(cfg: Settings, r: Rec) {
    && ValidRequest(cfg, r.order.info)
    && !r.order.status.PurchaseFailed?
    && (r.order.payType.Some? <==> r.payment.Some?)
    && (r.order.status.Created? ==> r.payment.None?)
    && (r.payment.None? ==>
          && (r.order.status.Created? || r.order.status.Cancelled? || r.order.status.ManualReview?)
          && r.order.tonHash.None? && r.order.paymentStatus.None? && !cfg.testMode)
    && (r.payment.Some? ==>
          && TermsFit(cfg, r.order.info, r.order.payType.value, r.order.invoice, r.payment.value.terms)
          && (r.payment.value.refund.key.Some? ==> r.payment.value.refund.key.value == RefundKey(r.order.info.number))
          && r.payment.value.txHash == r.order.tonHash
          && (!r.order.payType.value.TonPay? ==> r.order.tonHash.None?))
  }

  /** The status of the order never contradicts the state of the money. */
  predicate MoneyFits(r: Rec) {
    && (PastPayment(r.order.status) ==> Confirmed(r))
    && (r.order.paymentStatus == Some(PaySucceeded) <==> Confirmed(r))
    && (Confirmed(r) ==>
          && !Unpaid(r.order.status) && !r.order.status.PaymentExpired? && !r.order.status.Cancelled?
          && (r.order.status.PaymentFailed? ==> r.order.payType == Some(YooPay))
          && (r.order.payType == Some(YooPay) ==> r.payment.value.reference.ProviderReference?))
    && (r.order.tonHash.Some? ==>
          && r.order.tonHash.value != ""
          && !r.order.status.Created? && !r.order.status.WaitingForPayment? && !ClosedUnpaid(r.order.status))
    && (r.order.payType == Some(TonPay)
        && (r.order.status.PaymentDetected? || r.order.status.PaymentConfirming? || Confirmed(r)) ==>
          && r.order.tonHash.Some? && r.payment.Some? && r.order.invoice.Some?
          && r.payment.value.received == Some(r.order.invoice.value.amount))
  }

  /** The status of the order never contradicts its purchase attempt. */
  predicate AttemptFits(r: Rec) {
    && (r.attempt.None? ==> !PastPurchase(r.order.status) && r.order.requestId.None? && r.order.telegramTx.None?)
    && (r.attempt.Some? ==>
          var attempt := r.attempt.value;
          && Confirmed(r)
          && (PastPurchase(r.order.status) || r.order.status.ManualReview?)
          && !attempt.status.AttemptCreated?
          && attempt.requestId == r.order.requestId
          && (attempt.requestId.Some? ==> attempt.requestId.value != "")
          && (r.order.status.StarsSending? ==> attempt.requestId.Some?)
          && (r.order.status.Completed? <==> attempt.status.AttemptSucceeded?)
          && (r.order.status.Completed? <==> attempt.txId.Some?)
          && (attempt.txId.Some? ==> attempt.txId.value != "")
          && attempt.txId == r.order.telegramTx)
  }

  ghost predicate WellFormed(cfg: Settings, r: Rec) {
    PaymentFits(cfg, r) && MoneyFits(r) && AttemptFits(r)
  }

  lemma CreatedRowsWellFormed(cfg: Settings, info: OrderInfo, testPaymentId: string)
    requires ValidRequest(cfg, info)
    ensures WellFormed(cfg, CreatedRows(cfg, info, testPaymentId))
  {
    hide StatusNotes;
  }

  lemma SetupTonKeeps(cfg: Settings, r: Rec, amount: int, comment: string, destination: string, expiresAt: int)
    requires WellFormed(cfg, r)
    ensures var res := SetupTonPayment(r, amount, comment, destination, expiresAt);
            res.Ok? ==> WellFormed(cfg, res.value)
  {
    hide StatusNotes;
  }

  lemma InitiateYooKeeps(cfg: Settings, r: Rec, now: int, expiresAt: int)
    requires WellFormed(cfg, r)
    ensures var res := InitiateYoo(r, now, expiresAt);
            res.Ok? ==> WellFormed(cfg, res.value.0)
  {
    hide StatusNotes;
  }

  lemma PendingKeepsPayment(cfg: Settings, r: Rec, snap: Snapshot)
    requires WellFormed(cfg, r) && IsYoo(r) && !Confirmed(r) && !snap.status.SnapSucceeded? && !snap.status.SnapCanceled?
    ensures var res := TransitionYooStatus(Synced(r, snap), snap); res.Ok? ==> PaymentFits(cfg, res.value)
  {
    hide StatusNotes;
  }

  lemma PendingKeepsMoney(cfg: Settings, r: Rec, snap: Snapshot)
    requires WellFormed(cfg, r) && IsYoo(r) && !Confirmed(r) && !snap.status.SnapSucceeded? && !snap.status.SnapCanceled?
    ensures var res := TransitionYooStatus(Synced(r, snap), snap); res.Ok? ==> MoneyFits(res.value)
  {
    hide StatusNotes;
  }

  lemma PendingKeepsAttempt(cfg: Settings, r: Rec, snap: Snapshot)
    requires WellFormed(cfg, r) && IsYoo(r) && !Confirmed(r) && !snap.status.SnapSucceeded? && !snap.status.SnapCanceled?
    ensures var res := TransitionYooStatus(Synced(r, snap), snap); res.Ok? ==> AttemptFits(res.value)
  {
    hide StatusNotes;
  }

  lemma PendingKeeps(cfg: Settings, r: Rec, snap: Snapshot)
    requires WellFormed(cfg, r) && IsYoo(r) && !Confirmed(r) && !snap.status.SnapSucceeded? && !snap.status.SnapCanceled?
    ensures var res := TransitionYooStatus(Synced(r, snap), snap); res.Ok? ==> WellFormed(cfg, res.value)
  {
    PendingKeepsPayment(cfg, r, snap);
    PendingKeepsMoney(cfg, r, snap);
    PendingKeepsAttempt(cfg, r, snap);
    hide TransitionYooStatus, PaymentFits, MoneyFits, AttemptFits;
  }

  lemma CanceledOpenKeeps(cfg: Settings, r: Rec, snap: Snapshot)
    requires WellFormed(cfg, r) && IsYoo(r) && !Confirmed(r) && snap.status.SnapCanceled? && Unpaid(r.order.status)
    ensures var res := TransitionYooStatus(Synced(r, snap), snap); res.Ok? ==> WellFormed(cfg, res.value)
  {
    hide StatusNotes;
  }

  lemma CanceledClosedKeeps(cfg: Settings, r: Rec, snap: Snapshot)
    requires WellFormed(cfg, r) && IsYoo(r) && !Confirmed(r) && snap.status.SnapCanceled? && !Unpaid(r.order.status)
    ensures var res := TransitionYooStatus(Synced(r, snap), snap); res.Ok? ==> WellFormed(cfg, res.value)
  {
    hide StatusNotes;
  }

  /** A success that is accepted in time only marks the payment, names it and moves the order to PAID. */
  predicate PaidUp(r: Rec, paymentId: string, refundable: bool, url: Option<string>, after: Rec) {
    && r.payment.Some? && after.attempt == r.attempt
    && after.order == r.order.(status := Paid, paymentStatus := Some(PaySucceeded), paymentId := Some(paymentId))
    && after.payment
       == Some(r.payment.value.(reference := ProviderReference(paymentId), status := PaySucceeded,
                                refundable := refundable, confirmationUrl := url))
  }

  lemma SuccessPaysUp(r: Rec, snap: Snapshot)
    requires r.payment.Some? && snap.status.SnapSucceeded? && Unpaid(r.order.status) && !r.order.status.Created?
    ensures
      var res := TransitionYooStatus(Synced(r, snap), snap);
      res.Ok? ==> PaidUp(r, snap.paymentId, snap.refundable, Synced(r, snap).payment.value.confirmationUrl, res.value)
  {
    hide StatusNotes;
  }

  lemma PaidUpFits(cfg: Settings, r: Rec, paymentId: string, refundable: bool, url: Option<string>, after: Rec)
    requires WellFormed(cfg, r) && IsYoo(r) && Unpaid(r.order.status)
    requires PaidUp(r, paymentId, refundable, url, after)
    ensures WellFormed(cfg, after)
  {
  }

  lemma SucceededOpenKeeps(cfg: Settings, r: Rec, snap: Snapshot)
    requires WellFormed(cfg, r) && IsYoo(r) && snap.status.SnapSucceeded? && Unpaid(r.order.status)
    ensures var res := TransitionYooStatus(Synced(r, snap), snap); res.Ok? ==> WellFormed(cfg, res.value)
  {
    var res := TransitionYooStatus(Synced(r, snap), snap);
    assert !r.order.status.Created?;
    hide WellFormed, TransitionYooStatus, PaidUp;
    SuccessPaysUp(r, snap);
    if res.Ok? {
      PaidUpFits(cfg, r, snap.paymentId, snap.refundable, Synced(r, snap).payment.value.confirmationUrl, res.value);
    }
  }

  lemma SucceededClosedKeepsPayment(cfg: Settings, r: Rec, snap: Snapshot)
    requires WellFormed(cfg, r) && IsYoo(r) && snap.status.SnapSucceeded? && !Unpaid(r.order.status)
    ensures var res := TransitionYooStatus(Synced(r, snap), snap); res.Ok? ==> PaymentFits(cfg, res.value)
  {
    hide StatusNotes;
  }

  lemma SucceededClosedKeepsMoney(cfg: Settings, r: Rec, snap: Snapshot)
    requires WellFormed(cfg, r) && IsYoo(r) && snap.status.SnapSucceeded? && !Unpaid(r.order.status)
    ensures var res := TransitionYooStatus(Synced(r, snap), snap); res.Ok? ==> MoneyFits(res.value)
  {
    hide StatusNotes;
  }

  lemma SucceededClosedKeepsAttempt(cfg: Settings, r: Rec, snap: Snapshot)
    requires WellFormed(cfg, r) && IsYoo(r) && snap.status.SnapSucceeded? && !Unpaid(r.order.status)
    ensures var res := TransitionYooStatus(Synced(r, snap), snap); res.Ok? ==> AttemptFits(res.value)
  {
    hide StatusNotes;
  }

  lemma SucceededClosedKeeps(cfg: Settings, r: Rec, snap: Snapshot)
    requires WellFormed(cfg, r) && IsYoo(r) && snap.status.SnapSucceeded? && !Unpaid(r.order.status)
    ensures var res := TransitionYooStatus(Synced(r, snap), snap); res.Ok? ==> WellFormed(cfg, res.value)
  {
    SucceededClosedKeepsPayment(cfg, r, snap);
    SucceededClosedKeepsMoney(cfg, r, snap);
    SucceededClosedKeepsAttempt(cfg, r, snap);
    hide TransitionYooStatus, PaymentFits, MoneyFits, AttemptFits;
  }

  lemma SnapshotKeeps(cfg: Settings, r: Rec, snap: Snapshot, clash: bool)
    requires WellFormed(cfg, r)
    ensures var res := ApplySnapshot(r, snap, clash); res.Ok? ==> WellFormed(cfg, res.value)
  {
    if ApplySnapshot(r, snap, clash).Ok? {
      match snap.status
      case SnapSucceeded =>
        if Unpaid(r.order.status) { SucceededOpenKeeps(cfg, r, snap); } else { SucceededClosedKeeps(cfg, r, snap); }
      case SnapCanceled =>
        if Unpaid(r.order.status) { CanceledOpenKeeps(cfg, r, snap); } else { CanceledClosedKeeps(cfg, r, snap); }
      case _ => PendingKeeps(cfg, r, snap);
    }
  }

  /** A transaction was just linked, or had been linked before. */
  predicate Linked(cfg: Settings, r: Rec, hash: string) {
    && PaymentFits(cfg, r) && AttemptFits(r)
    && AwaitsTon(r) && !Confirmed(r) && r.payment.Some? && r.order.paymentStatus != Some(PaySucceeded)
    && r.order.tonHash == Some(hash) && hash != ""
  }

  lemma LinkedReviewKeeps(cfg: Settings, r: Rec, hash: string, code: Code)
    requires Linked(cfg, r, hash)
    ensures var res := ReviewPayment(r, code); res.Ok? ==> WellFormed(cfg, res.value)
  {
    hide StatusNotes;
  }

  lemma ConfirmTonKeeps(cfg: Settings, r: Rec, seen: Observation, now: int)
    requires Linked(cfg, r, seen.hash) && TonProblem(r, seen).None? && r.payment.value.received == Some(seen.amount)
    ensures var res := ConfirmTon(cfg, r, seen, now); res.Ok? ==> WellFormed(cfg, res.value)
  {
    hide StatusNotes;
  }

  lemma DetectionLinks(cfg: Settings, r: Rec, seen: Observation, clash: bool, stale: bool)
    requires WellFormed(cfg, r) && AwaitsTon(r) && r.order.tonHash.None?
    ensures var res := RecordDetection(r, seen.hash, seen.amount, clash, stale);
            && (res.Ok? && res.value.Some? ==>
                  && Linked(cfg, res.value.value, seen.hash)
                  && res.value.value.payment.value.received == Some(seen.amount))
  {
    hide StatusNotes;
  }

  lemma ReviewKeeps(cfg: Settings, r: Rec, code: Code)
    requires WellFormed(cfg, r)
    ensures var res := Review(r, code); res.Ok? ==> WellFormed(cfg, res.value)
  {
    hide StatusNotes;
  }

  lemma ReviewPaymentKeeps(cfg: Settings, r: Rec, code: Code)
    requires WellFormed(cfg, r) && !Confirmed(r) && r.payment.Some?
    ensures var res := ReviewPayment(r, code); res.Ok? ==> WellFormed(cfg, res.value)
  {
    hide StatusNotes;
  }

  lemma SettleTonKeeps(cfg: Settings, r: Rec, seen: Observation, now: int)
    requires Linked(cfg, r, seen.hash)
    requires
      || r.payment.value.received == Some(seen.amount)
      || r.payment.value.received == Some(r.order.invoice.value.amount)
    ensures var res := SettleTon(cfg, r, seen, now); res.Ok? ==> WellFormed(cfg, res.value)
  {
    var problem := TonProblem(r, seen);
    if problem.Some? { LinkedReviewKeeps(cfg, r, seen.hash, problem.value); } else { ConfirmTonKeeps(cfg, r, seen, now); }
  }

  lemma TonObservationKeeps(cfg: Settings, r: Rec, seen: Observation, now: int, clash: bool, stale: bool)
    requires WellFormed(cfg, r)
    ensures var res := RecordTonObservation(cfg, r, seen, now, clash, stale); res.Ok? ==> WellFormed(cfg, res.value)
  {
    if AwaitsTon(r) {
      if !OnRoute(r.order, seen) {
        ReviewPaymentKeeps(cfg, r, PaymentRouteMismatch);
      } else if !Truthy(r.order.tonHash) {
        DetectionLinks(cfg, r, seen, clash, stale);
        var linked := RecordDetection(r, seen.hash, seen.amount, clash, stale);
        if linked.Ok? && linked.value.Some? {
          SettleTonKeeps(cfg, linked.value.value, seen, now);
        }
        ReviewKeeps(cfg, r, DuplicatePaymentTransaction);
      } else {
        ReviewKeeps(cfg, r, MultiplePaymentTransactions);
        if r.order.tonHash.value == seen.hash { SettleTonKeeps(cfg, r, seen, now); }
      }
    }
  }

  lemma TestConfirmationKeeps(cfg: Settings, r: Rec, succeeded: bool)
    requires WellFormed(cfg, r) && cfg.testMode
    ensures var res := BeginTestConfirmation(cfg, r); res.Ok? ==> WellFormed(cfg, res.value.0)
    ensures var res := EndTestConfirmation(r, succeeded); res.Ok? ==> WellFormed(cfg, res.value)
  {
    hide StatusNotes;
  }

  lemma ExpiryKeeps(cfg: Settings, r: Rec, now: int)
    requires WellFormed(cfg, r)
    ensures var res := ExpireIfNeeded(r, now); res.Ok? ==> WellFormed(cfg, res.value)
  {
    if !Confirmed(r) && r.payment.Some? { ReviewPaymentKeeps(cfg, r, PaymentConfirmationLost); }
  }

  lemma CancelKeeps(cfg: Settings, r: Rec)
    requires WellFormed(cfg, r)
    ensures var res := CancelOrder(r); res.Ok? ==> WellFormed(cfg, res.value)
  {
    hide StatusNotes;
  }

  /** Only the purchase columns differ: what was agreed and paid is the same. */
  predicate SameMoney(r: Rec, after: Rec) {
    && after.payment == r.payment
    && after.order.info == r.order.info
    && after.order.payType == r.order.payType
    && after.order.invoice == r.order.invoice
    && after.order.tonHash == r.order.tonHash
    && after.order.paymentStatus == r.order.paymentStatus
  }

  lemma SameMoneyKeeps(cfg: Settings, r: Rec, after: Rec)
    requires WellFormed(cfg, r) && Confirmed(r) && SameMoney(r, after) && AttemptFits(after)
    requires PastPurchase(after.order.status) || after.order.status.ManualReview?
    ensures WellFormed(cfg, after)
  {
  }

  lemma DeliveryKeepsMoney(cfg: Settings, r: Rec, hold: bool)
    requires WellFormed(cfg, r)
    ensures var res := BeginDelivery(cfg, r, hold); res.Ok? ==> SameMoney(r, res.value.0)
    ensures var res := BeginDelivery(cfg, r, hold); res.Ok? ==> MoneyFits(res.value.0)
  {
    hide StatusNotes, PurchaseValidationError;
  }

  lemma DeliveryKeepsPayment(cfg: Settings, r: Rec, hold: bool)
    requires WellFormed(cfg, r)
    ensures var res := BeginDelivery(cfg, r, hold); res.Ok? ==> PaymentFits(cfg, res.value.0)
  {
    hide StatusNotes, PurchaseValidationError;
  }

  lemma DeliveryKeepsAttempt(cfg: Settings, r: Rec, hold: bool)
    requires WellFormed(cfg, r)
    ensures var res := BeginDelivery(cfg, r, hold); res.Ok? ==> AttemptFits(res.value.0)
  {
    hide StatusNotes, PurchaseValidationError;
  }

  lemma DeliveryKeeps(cfg: Settings, r: Rec, hold: bool)
    requires WellFormed(cfg, r)
    ensures var res := BeginDelivery(cfg, r, hold); res.Ok? ==> WellFormed(cfg, res.value.0) && SameMoney(r, res.value.0)
  {
    DeliveryKeepsMoney(cfg, r, hold);
    DeliveryKeepsPayment(cfg, r, hold);
    DeliveryKeepsAttempt(cfg, r, hold);
    hide BeginDelivery, PaymentFits, MoneyFits, AttemptFits, SameMoney;
  }

  predicate PurchaseSide(r: Rec, after: Rec) {
    && SameMoney(r, after) && AttemptFits(after)
    && (PastPurchase(after.order.status) || after.order.status.ManualReview?)
  }

  lemma QueuedKeeps(r: Rec, requestId: string, clash: bool)
    requires AttemptFits(r) && r.attempt.Some? && !r.order.status.Completed? && requestId != ""
    ensures var res := MarkQueued(r, r.attempt.value, requestId, clash); res.Ok? ==> PurchaseSide(r, res.value)
  {
    hide StatusNotes;
  }

  lemma FailedKeeps(r: Rec, code: Code, uncertain: bool)
    requires r.attempt.Some? && AttemptFits(r.(order := r.order.(status := ManualReview)))
    requires Confirmed(r) && !r.order.status.Completed?
    ensures var res := MarkFailed(r, r.attempt.value, code, uncertain); res.Ok? ==> PurchaseSide(r, res.value)
  {
    hide StatusNotes;
  }

  lemma BalanceKeeps(r: Rec, code: Code)
    requires AttemptFits(r) && r.attempt.Some? && !r.order.status.Completed?
    ensures var res := MarkWaitingForBalance(r, r.attempt.value, code); res.Ok? ==> PurchaseSide(r, res.value)
  {
    hide StatusNotes;
  }

  lemma SuccessKeeps(r: Rec, txId: string, clash: bool, stale: bool)
    requires r.attempt.Some? && AttemptFits(r.(order := r.order.(status := ManualReview)))
    requires Confirmed(r) && !r.order.status.Completed? && txId != ""
    ensures var res := MarkSucceeded(r, r.attempt.value, txId, clash, stale); res.Ok? ==> PurchaseSide(r, res.value)
  {
    FailedKeeps(r, DuplicateProviderTransaction, true);
  }

  lemma ResultKeeps(cfg: Settings, r: Rec, res: PurchaseResult, clash: bool, stale: bool)
    requires WellFormed(cfg, r)
    ensures var after := ApplyResult(r, res, clash, stale);
            after.Ok? ==> WellFormed(cfg, after.value) && SameMoney(r, after.value)
  {
    var after := ApplyResult(r, res, clash, stale);
    if after.Ok? && !r.order.status.Completed? {
      assert AttemptFits(r.(order := r.order.(status := ManualReview)));
      if IsQueued(res) {
        QueuedKeeps(r, res.requestId.value, clash);
        assert PurchaseSide(r, after.value);
      } else if res.succeeded && Truthy(res.txId) {
        var sending := Advance(r, PurchaseProcessing, StarsSending).value;
        assert sending.order.(status := ManualReview, errorCode := r.order.errorCode) == r.order.(status := ManualReview);
        assert AttemptFits(sending.(order := sending.order.(status := ManualReview)));
        SuccessKeeps(sending, res.txId.value, clash, stale);
        assert PurchaseSide(sending, after.value);
      } else if res.succeeded {
        FailedKeeps(r, PurchaseReferenceMissing, true);
      } else {
        BalanceKeeps(r, ResultCode(res));
        FailedKeeps(r, ResultCode(res), res.uncertain);
      }
      SameMoneyKeeps(cfg, r, after.value);
    }
  }

  lemma ReconciliationKeeps(cfg: Settings, r: Rec)
    requires WellFormed(cfg, r)
    ensures var res := BeginReconciliation(cfg, r); res.Ok? ==> WellFormed(cfg, res.value.0)
  {
    if !r.order.status.Completed? { ReviewKeeps(cfg, r, ReconciliationDataMissing); }
  }

  lemma ApprovalKeeps(cfg: Settings, r: Rec)
    requires WellFormed(cfg, r)
    ensures var res := ApproveBalanceRetry(r); res.Ok? ==> WellFormed(cfg, res.value) && SameMoney(r, res.value)
  {
    var res := ApproveBalanceRetry(r);
    if res.Ok? {
      assert AttemptFits(res.value);
      SameMoneyKeeps(cfg, r, res.value);
    }
  }

  /** Only the refund columns of the payment row may differ, and the stable key is kept. */
  predicate RefundSide(r: Rec, after: Rec) {
    && r.payment.Some? && after.payment.Some?
    && after.payment.value == r.payment.value.(refund := after.payment.value.refund)
    && (after.payment.value.refund.key.Some? ==>
          || after.payment.value.refund.key == r.payment.value.refund.key
          || after.payment.value.refund.key.value == RefundKey(r.order.info.number))
    && after.attempt == r.attempt
    && after.order == r.order.(status := after.order.status, errorCode := after.order.errorCode)
    && (after.order.status != r.order.status ==> r.order.status.RefundRequired? && after.order.status.Refunded?)
  }

  lemma RefundSideKeeps(cfg: Settings, r: Rec, after: Rec)
    requires WellFormed(cfg, r) && RefundSide(r, after)
    ensures WellFormed(cfg, after)
  {
  }

  lemma BeginRefundKeeps(cfg: Settings, r: Rec)
    requires WellFormed(cfg, r)
    ensures var res := BeginRefund(r); res.Ok? ==> WellFormed(cfg, res.value.0)
  {
    var res := BeginRefund(r);
    if res.Ok? { RefundSideKeeps(cfg, r, res.value.0); }
  }

  lemma FinishRefundKeeps(cfg: Settings, r: Rec, refund: Refund, clash: bool)
    requires WellFormed(cfg, r)
    ensures var res := FinishRefund(r, refund, clash); res.Ok? ==> WellFormed(cfg, res.value)
  {
    var res := FinishRefund(r, refund, clash);
    if res.Ok? { RefundSideKeeps(cfg, r, res.value); }
  }

  lemma SyncRefundKeeps(cfg: Settings, r: Rec, refund: Refund)
    requires WellFormed(cfg, r)
    ensures var res := SyncRefund(r, refund); res.Ok? ==> WellFormed(cfg, res.value)
  {
    var res := SyncRefund(r, refund);
    if res.Ok? { RefundSideKeeps(cfg, r, res.value); }
  }

  lemma MarkRefundedKeeps(cfg: Settings, r: Rec)
    requires WellFormed(cfg, r)
    ensures var res := MarkRefunded(r); res.Ok? ==> WellFormed(cfg, res.value)
  {
    var res := MarkRefunded(r);
    if res.Ok? { RefundSideKeeps(cfg, r, res.value); }
  }
}
