/** Every transaction extends the audit log and the outbox together with the status. */
module OrderHistory {
  import opened Domain
  import opened Ledger
  import opened OrderFlow
  import opened OrderInvariants

  lemma CreatedRowsChronicle(cfg: Settings, info: OrderInfo, testPaymentId: string)
    ensures Chronicle(CreatedRows(cfg, info, testPaymentId))
  {
    TransitionsKeepChronicle();
    assert Chronicle(NewOrder(info));
  }

  lemma SetupKeepsChronicle(r: Rec, amount: int, comment: string, destination: string, now: int, expiresAt: int)
    requires Chronicle(r)
    ensures var res := SetupTonPayment(r, amount, comment, destination, expiresAt); res.Ok? ==> Chronicle(res.value)
    ensures var res := InitiateYoo(r, now, expiresAt); res.Ok? ==> Chronicle(res.value.0)
  {
    TransitionsKeepChronicle();
  }

  lemma AdvanceKeepsChronicle(r: Rec, source: OrderStatus, target: OrderStatus)
    requires Chronicle(r)
    ensures var res := Advance(r, source, target); res.Ok? ==> Chronicle(res.value)
  {
    TransitionKeepsChronicle(r, target, None);
  }

  /** The two steps from waiting to confirming that a captured or succeeded payment takes. */
  lemma ConfirmingKeepsChronicle(r: Rec)
    requires Chronicle(r)
    ensures var detected := Advance(r, WaitingForPayment, PaymentDetected);
            && detected.Ok?
            && var confirming := Advance(detected.value, PaymentDetected, PaymentConfirming);
            confirming.Ok? && Chronicle(confirming.value)
  {
    AdvanceKeepsChronicle(r, WaitingForPayment, PaymentDetected);
    AdvanceKeepsChronicle(Advance(r, WaitingForPayment, PaymentDetected).value, PaymentDetected, PaymentConfirming);
  }

  lemma CanceledKeepsChronicle(r: Rec, snap: Snapshot)
    requires Chronicle(r) && snap.status.SnapCanceled?
    ensures var res := TransitionYooStatus(r, snap); res.Ok? ==> Chronicle(res.value)
  {
    AdvanceKeepsChronicle(r, PaymentDetected, PaymentConfirming);
    var marked := SetPaymentStatus(Advance(r, PaymentDetected, PaymentConfirming).value, PayCanceled);
    TransitionKeepsChronicle(marked, PaymentFailed, Some(YooKassaPaymentCanceled));
  }

  lemma SucceededKeepsChronicle(r: Rec, snap: Snapshot)
    requires Chronicle(r) && snap.status.SnapSucceeded?
    ensures var res := TransitionYooStatus(r, snap); res.Ok? ==> Chronicle(res.value)
  {
    if r.order.status.PaymentExpired? || r.order.status.Cancelled? {
      TransitionKeepsChronicle(SetPaymentStatus(r, PaySucceeded), ManualReview, Some(YooKassaLatePayment));
    } else {
      ConfirmingKeepsChronicle(r);
      var detected := Advance(r, WaitingForPayment, PaymentDetected).value;
      var confirming := Advance(detected, PaymentDetected, PaymentConfirming).value;
      AdvanceKeepsChronicle(SetPaymentStatus(confirming, PaySucceeded), PaymentConfirming, Paid);
    }
  }

  lemma YooStatusKeepsChronicle(r: Rec, snap: Snapshot)
    requires Chronicle(r)
    ensures var res := TransitionYooStatus(r, snap); res.Ok? ==> Chronicle(res.value)
  {
    match snap.status
    case SnapPending =>
    case SnapWaitingForCapture => ConfirmingKeepsChronicle(r);
    case SnapCanceled => CanceledKeepsChronicle(r, snap);
    case SnapSucceeded => SucceededKeepsChronicle(r, snap);
  }

  lemma SnapshotKeepsChronicle(r: Rec, snap: Snapshot, clash: bool)
    requires Chronicle(r)
    ensures var res := ApplySnapshot(r, snap, clash); res.Ok? ==> Chronicle(res.value)
  {
    if r.payment.Some? { YooStatusKeepsChronicle(Synced(r, snap), snap); }
  }

  lemma ObservationKeepsChronicle(cfg: Settings, r: Rec, seen: Sighting, now: int, clash: bool, stale: bool)
    requires Chronicle(r)
    ensures var res := RecordTonObservation(cfg, r, seen, now, clash, stale); res.Ok? ==> Chronicle(res.value)
  {
    TransitionsKeepChronicle();
  }

  lemma TestConfirmationKeepsChronicle(cfg: Settings, r: Rec, succeeded: bool)
    requires Chronicle(r)
    ensures var res := BeginTestConfirmation(cfg, r); res.Ok? ==> Chronicle(res.value.0)
    ensures var res := EndTestConfirmation(r, succeeded); res.Ok? ==> Chronicle(res.value)
  {
    TransitionsKeepChronicle();
  }

  lemma ClosingKeepsChronicle(r: Rec, now: int)
    requires Chronicle(r)
    ensures var res := ExpireIfNeeded(r, now); res.Ok? ==> Chronicle(res.value)
    ensures var res := CancelOrder(r); res.Ok? ==> Chronicle(res.value)
    ensures var res := AdminReview(r); res.Ok? ==> Chronicle(res.value)
    ensures Chronicle(Resend(r))
  {
    TransitionsKeepChronicle();
    ResendKeepsChronicle(r);
  }

  lemma DeliveryKeepsChronicle(cfg: Settings, r: Rec, hold: bool)
    requires Chronicle(r)
    ensures var res := BeginDelivery(cfg, r, hold); res.Ok? ==> Chronicle(res.value.0)
    ensures var res := BeginReconciliation(cfg, r); res.Ok? ==> Chronicle(res.value.0)
    ensures var res := ApproveBalanceRetry(r); res.Ok? ==> Chronicle(res.value)
  {
    TransitionsKeepChronicle();
  }

  lemma QueuedKeepsChronicle(r: Rec, attempt: Attempt, requestId: string, clash: bool)
    requires Chronicle(r)
    ensures var res := MarkQueued(r, attempt, requestId, clash); res.Ok? ==> Chronicle(res.value)
  {
    TransitionKeepsChronicle(r.(order := r.order.(requestId := Some(requestId)),
                                attempt := Some(attempt.(requestId := Some(requestId), status := Queued))), StarsSending, None);
  }

  lemma FailedKeepsChronicle(r: Rec, attempt: Attempt, code: Code, uncertain: bool)
    requires Chronicle(r)
    ensures var res := MarkFailed(r, attempt, code, uncertain); res.Ok? ==> Chronicle(res.value)
  {
    TransitionKeepsChronicle(r.(attempt := Some(attempt.(status := if uncertain then Uncertain else AttemptFailed,
                                                         errorCode := Some(code)))),
                             if uncertain then ManualReview else RefundRequired, Some(code));
  }

  lemma BalanceKeepsChronicle(r: Rec, attempt: Attempt, code: Code)
    requires Chronicle(r)
    ensures var res := MarkWaitingForBalance(r, attempt, code); res.Ok? ==> Chronicle(res.value)
  {
    TransitionKeepsChronicle(r.(attempt := Some(attempt.(status := AttemptFailed, errorCode := Some(code)))),
                             WaitingForMerchantBalance, Some(code));
  }

  /** An undone savepoint leaves neither an audit event nor an outbox row of the completion. */
  lemma SuccessKeepsChronicle(r: Rec, attempt: Attempt, txId: string, clash: bool, stale: bool)
    requires Chronicle(r)
    ensures var res := MarkSucceeded(r, attempt, txId, clash, stale); res.Ok? ==> Chronicle(res.value)
  {
    FailedKeepsChronicle(r, attempt, DuplicateProviderTransaction, true);
    TransitionKeepsChronicle(r.(order := r.order.(telegramTx := Some(txId)),
                                attempt := Some(attempt.(status := AttemptSucceeded, txId := Some(txId)))), Completed, None);
  }

  lemma ResultKeepsChronicle(r: Rec, res: PurchaseResult, clash: bool, stale: bool)
    requires Chronicle(r)
    ensures var after := ApplyResult(r, res, clash, stale); after.Ok? ==> Chronicle(after.value)
  {
    hide MarkQueued, MarkFailed, MarkSucceeded, MarkWaitingForBalance, Replays, StatusNotes;
    if r.attempt.Some? {
      if IsQueued(res) {
        QueuedKeepsChronicle(r, r.attempt.value, res.requestId.value, clash);
      } else if res.succeeded && Truthy(res.txId) {
        AdvanceKeepsChronicle(r, PurchaseProcessing, StarsSending);
        var sending := Advance(r, PurchaseProcessing, StarsSending).value;
        SuccessKeepsChronicle(sending, sending.attempt.value, res.txId.value, clash, stale);
      } else if res.succeeded {
        FailedKeepsChronicle(r, r.attempt.value, PurchaseReferenceMissing, true);
      } else {
        FailedKeepsChronicle(r, r.attempt.value, ResultCode(res), res.uncertain);
        BalanceKeepsChronicle(r, r.attempt.value, ResultCode(res));
      }
    }
  }

  lemma RefundKeepsChronicle(r: Rec, refund: Refund, clash: bool)
    requires Chronicle(r)
    ensures var res := BeginRefund(r); res.Ok? ==> Chronicle(res.value.0)
    ensures var res := FinishRefund(r, refund, clash); res.Ok? ==> Chronicle(res.value)
    ensures var res := SyncRefund(r, refund); res.Ok? ==> Chronicle(res.value)
    ensures var res := MarkRefunded(r); res.Ok? ==> Chronicle(res.value)
  {
    TransitionsKeepChronicle();
  }
}
