/** What no transaction on an order ever takes back. */
module OrderPersistence {
  import opened Domain
  import opened Ledger
  import opened OrderFlow
  import opened OrderInvariants

  predicate Final(status: OrderStatus) {
    status.Completed? || status.Refunded? || status.PaymentFailed?
  }

  /** Facts of `r` that every later committed state `after` of the same order still shows. */
  predicate Persists(r: Rec, after: Rec) {
    && after.order.info == r.order.info
    && (r.payment.Some? ==>
          && after.payment.Some?
          && after.payment.value.terms == r.payment.value.terms
          && (r.payment.value.reference.ProviderReference? ==>
                after.payment.value.reference == r.payment.value.reference)
          && (r.payment.value.txHash.Some? ==> after.payment.value.txHash == r.payment.value.txHash))
    && (Confirmed(r) ==> Confirmed(after))
    && (r.attempt.Some? ==> after.attempt.Some?)
    && (Final(r.order.status) ==> after.order.status == r.order.status)
    && (r.order.status.Completed? ==> after.attempt == r.attempt)
    && (r.order.status.ManualReview? && r.attempt.None? ==> after.order.status.ManualReview? && after.attempt.None?)
  }

  lemma PersistsReflexive(r: Rec)
    ensures Persists(r, r)
  {
  }

  lemma PersistsTransitive(a: Rec, b: Rec, c: Rec)
    requires Persists(a, b) && Persists(b, c)
    ensures Persists(a, c)
  {
  }

  /** Nothing that a purchase decides is touched. */
  predicate LeavesPurchase(r: Rec, after: Rec) {
    && after.attempt == r.attempt
    && (PastPurchase(after.order.status) ==>
          || after.order.status == r.order.status
          || (r.order.status.RefundRequired? && after.order.status.Refunded?))
  }

  predicate Beside(r: Rec, after: Rec) {
    Persists(r, after) && LeavesPurchase(r, after)
  }

  lemma BesideReflexive(r: Rec)
    ensures Beside(r, r)
  {
  }

  lemma BesideTransitive(a: Rec, b: Rec, c: Rec)
    requires Beside(a, b) && Beside(b, c)
    ensures Beside(a, c)
  {
  }

  lemma SetupPersists(r: Rec, amount: int, comment: string, destination: string, now: int, expiresAt: int)
    ensures var res := SetupTonPayment(r, amount, comment, destination, expiresAt); res.Ok? ==> Beside(r, res.value)
    ensures var res := InitiateYoo(r, now, expiresAt); res.Ok? ==> Beside(r, res.value.0)
  {
    hide StatusNotes;
  }

  lemma CanceledPersists(r: Rec, snap: Snapshot)
    requires !Confirmed(r) && snap.status.SnapCanceled?
    ensures var res := TransitionYooStatus(r, snap); res.Ok? ==> Beside(r, res.value)
  {
    hide StatusNotes;
  }

  lemma PendingPersists(r: Rec, snap: Snapshot)
    requires !Confirmed(r) && (snap.status.SnapPending? || snap.status.SnapWaitingForCapture?)
    ensures var res := TransitionYooStatus(r, snap); res.Ok? ==> Beside(r, res.value)
  {
    hide StatusNotes;
  }

  lemma TimelySuccessPersists(r: Rec, snap: Snapshot)
    requires snap.status.SnapSucceeded? && Unpaid(r.order.status)
    ensures var res := TransitionYooStatus(r, snap); res.Ok? ==> Beside(r, res.value)
  {
    hide StatusNotes;
  }

  lemma RepeatedSuccessPersists(r: Rec, snap: Snapshot)
    requires snap.status.SnapSucceeded? && !Unpaid(r.order.status)
    requires !r.order.status.PaymentExpired? && !r.order.status.Cancelled?
    ensures var res := TransitionYooStatus(r, snap); res.Ok? ==> Beside(r, res.value)
  {
    hide StatusNotes, Transition;
  }

  lemma LateSuccessPersists(r: Rec, snap: Snapshot)
    requires snap.status.SnapSucceeded? && (r.order.status.PaymentExpired? || r.order.status.Cancelled?)
    ensures var res := TransitionYooStatus(r, snap); res.Ok? ==> Beside(r, res.value)
  {
    hide StatusNotes;
  }

  lemma StatusPersists(r: Rec, snap: Snapshot)
    requires Confirmed(r) ==> snap.status.SnapSucceeded?
    ensures var res := TransitionYooStatus(r, snap); res.Ok? ==> Beside(r, res.value)
  {
    hide TransitionYooStatus, Beside;
    if snap.status.SnapCanceled? { CanceledPersists(r, snap); }
    else if !snap.status.SnapSucceeded? { PendingPersists(r, snap); }
    else if r.order.status.PaymentExpired? || r.order.status.Cancelled? { LateSuccessPersists(r, snap); }
    else if Unpaid(r.order.status) { TimelySuccessPersists(r, snap); }
    else { RepeatedSuccessPersists(r, snap); }
  }

  lemma SnapshotPersists(r: Rec, snap: Snapshot, clash: bool)
    ensures var res := ApplySnapshot(r, snap, clash); res.Ok? ==> Beside(r, res.value)
  {
    hide TransitionYooStatus;
    if ApplySnapshot(r, snap, clash).Ok? {
      StatusPersists(Synced(r, snap), snap);
    }
  }

  lemma SettlingPersists(cfg: Settings, r: Rec, seen: Observation, now: int)
    requires AwaitsTon(r) && !Confirmed(r)
    ensures var res := SettleTon(cfg, r, seen, now); res.Ok? ==> Beside(r, res.value)
  {
    hide StatusNotes;
  }

  lemma ReviewPersists(r: Rec, code: Code)
    ensures Review(r, code).Ok? ==> Beside(r, Review(r, code).value)
    ensures ReviewPayment(r, code).Ok? && !Confirmed(r) ==> Beside(r, ReviewPayment(r, code).value)
  {
    hide StatusNotes;
  }

  lemma DetectionPersists(r: Rec, hash: string, amount: int, clash: bool, stale: bool)
    requires !Confirmed(r) && (r.payment.Some? ==> r.payment.value.txHash.None?)
    ensures
      var res := RecordDetection(r, hash, amount, clash, stale);
      res.Ok? && res.value.Some? ==>
        && Beside(r, res.value.value) && !Confirmed(res.value.value)
        && (AwaitsTon(r) ==> AwaitsTon(res.value.value))
  {
  }

  lemma AwaitedIsUnlinked(cfg: Settings, r: Rec)
    requires WellFormed(cfg, r) && AwaitsTon(r)
    ensures !Confirmed(r) && (!Truthy(r.order.tonHash) && r.payment.Some? ==> r.payment.value.txHash.None?)
  {
  }

  lemma ObservationPersists(cfg: Settings, r: Rec, seen: Observation, now: int, clash: bool, stale: bool)
    requires WellFormed(cfg, r)
    ensures var res := RecordTonObservation(cfg, r, seen, now, clash, stale); res.Ok? ==> Beside(r, res.value)
  {
    hide WellFormed, Review, ReviewPayment, SettleTon, Beside;
    BesideReflexive(r);
    if AwaitsTon(r) {
      AwaitedIsUnlinked(cfg, r);
      ReviewPersists(r, PaymentRouteMismatch);
      ReviewPersists(r, DuplicatePaymentTransaction);
      ReviewPersists(r, MultiplePaymentTransactions);
      SettlingPersists(cfg, r, seen, now);
      var linked := RecordDetection(r, seen.hash, seen.amount, clash, stale);
      if !Truthy(r.order.tonHash) && linked.Ok? && linked.value.Some? {
        DetectionPersists(r, seen.hash, seen.amount, clash, stale);
        SettlingPersists(cfg, linked.value.value, seen, now);
        if SettleTon(cfg, linked.value.value, seen, now).Ok? {
          BesideTransitive(r, linked.value.value, SettleTon(cfg, linked.value.value, seen, now).value);
        }
      }
    }
  }

  lemma TestConfirmationPersists(cfg: Settings, r: Rec, succeeded: bool)
    requires Unpaid(r.order.status) ==> !Confirmed(r)
    ensures var res := BeginTestConfirmation(cfg, r); res.Ok? ==> Beside(r, res.value.0)
    ensures var res := EndTestConfirmation(r, succeeded); res.Ok? ==> Beside(r, res.value)
  {
    hide StatusNotes;
  }

  lemma ExpiryPersists(r: Rec, now: int)
    requires Unpaid(r.order.status) ==> !Confirmed(r)
    ensures var res := ExpireIfNeeded(r, now); res.Ok? ==> Beside(r, res.value)
  {
    hide StatusNotes;
  }

  lemma ClosingPersists(r: Rec, now: int)
    requires Unpaid(r.order.status) ==> !Confirmed(r)
    ensures var res := ExpireIfNeeded(r, now); res.Ok? ==> Beside(r, res.value)
    ensures var res := CancelOrder(r); res.Ok? ==> Beside(r, res.value)
    ensures var res := AdminReview(r); res.Ok? ==> Beside(r, res.value)
    ensures Beside(r, Resend(r))
  {
    ExpiryPersists(r, now);
    hide StatusNotes, ExpireIfNeeded;
  }

  lemma ResendKeeps(cfg: Settings, r: Rec)
    requires WellFormed(cfg, r)
    ensures WellFormed(cfg, Resend(r))
  {
  }

  lemma DeliveryPersists(cfg: Settings, r: Rec, hold: bool)
    ensures var res := BeginDelivery(cfg, r, hold); res.Ok? ==> Persists(r, res.value.0)
  {
    hide StatusNotes, PurchaseValidationError;
  }

  lemma ReconciliationPersists(cfg: Settings, r: Rec)
    ensures var res := BeginReconciliation(cfg, r); res.Ok? ==> Beside(r, res.value.0)
  {
    hide StatusNotes;
  }

  lemma ApprovalPersists(r: Rec)
    ensures var res := ApproveBalanceRetry(r); res.Ok? ==> Persists(r, res.value)
  {
    hide StatusNotes;
  }

  lemma QueuedPersists(r: Rec, res: PurchaseResult, clash: bool, stale: bool)
    requires IsQueued(res)
    ensures var after := ApplyResult(r, res, clash, stale); after.Ok? ==> Persists(r, after.value)
  {
    hide StatusNotes;
  }

  lemma MarkFailedPersists(r: Rec, attempt: Attempt, code: Code, uncertain: bool)
    requires r.attempt == Some(attempt) && !r.order.status.Completed?
    ensures var after := MarkFailed(r, attempt, code, uncertain); after.Ok? ==> Persists(r, after.value)
  {
    hide StatusNotes;
  }

  lemma MarkSucceededPersists(r: Rec, attempt: Attempt, txId: string, clash: bool, stale: bool)
    requires r.attempt == Some(attempt) && !r.order.status.Completed?
    ensures var after := MarkSucceeded(r, attempt, txId, clash, stale); after.Ok? ==> Persists(r, after.value)
  {
    MarkFailedPersists(r, attempt, DuplicateProviderTransaction, true);
    hide StatusNotes, MarkFailed;
  }

  lemma SuccessPersists(r: Rec, res: PurchaseResult, clash: bool, stale: bool)
    requires !IsQueued(res) && res.succeeded
    ensures var after := ApplyResult(r, res, clash, stale); after.Ok? ==> Persists(r, after.value)
  {
    hide StatusNotes, MarkFailed, MarkSucceeded;
    if r.attempt.Some? && !r.order.status.Completed? {
      MarkFailedPersists(r, r.attempt.value, PurchaseReferenceMissing, true);
      var sending := Advance(r, PurchaseProcessing, StarsSending);
      if sending.Ok? && Truthy(res.txId) {
        MarkSucceededPersists(sending.value, sending.value.attempt.value, res.txId.value, clash, stale);
      }
    }
  }

  lemma FailurePersists(r: Rec, res: PurchaseResult, clash: bool, stale: bool)
    requires !IsQueued(res) && !res.succeeded
    ensures var after := ApplyResult(r, res, clash, stale); after.Ok? ==> Persists(r, after.value)
  {
    hide StatusNotes;
  }

  lemma ResultPersists(r: Rec, res: PurchaseResult, clash: bool, stale: bool)
    ensures var after := ApplyResult(r, res, clash, stale); after.Ok? ==> Persists(r, after.value)
  {
    hide ApplyResult, Persists;
    if IsQueued(res) { QueuedPersists(r, res, clash, stale); }
    else if res.succeeded { SuccessPersists(r, res, clash, stale); }
    else { FailurePersists(r, res, clash, stale); }
  }

  lemma RefundPersists(r: Rec, refund: Refund, clash: bool)
    ensures var res := BeginRefund(r); res.Ok? ==> Beside(r, res.value.0)
    ensures var res := FinishRefund(r, refund, clash); res.Ok? ==> Beside(r, res.value)
    ensures var res := SyncRefund(r, refund); res.Ok? ==> Beside(r, res.value)
    ensures var res := MarkRefunded(r); res.Ok? ==> Beside(r, res.value)
  {
    hide StatusNotes;
  }
}
