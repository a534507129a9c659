/** What the transactions of a purchase can do to the attempt, in the terms the safety proofs need. */
module PurchaseSteps {
  import opened Domain
  import opened Ledger
  import opened OrderFlow
  import opened OrderInvariants
  import opened OrderPersistence

  /** The shape of every outcome of the first transaction of a delivery. */
  predicate DeliveryOutcome(r: Rec, after: Rec, next: Next) {
    match next
    case Start =>
      || (r.attempt.None? && after.attempt == Some(Attempt(Submitting, None, None, None))
          && after.order.status.PurchaseProcessing?)
      || (after == r && r.attempt.Some? && HoldsRetryToken(r.attempt.value)
          && (r.order.status.PurchaseProcessing? || r.order.status.StarsSending?))
    case Check(requestId) => after == r && r.attempt.Some? && r.attempt.value.requestId == Some(requestId)
    case GiveUp(code) => after == r && r.attempt.Some? && !IsBalanceCode(code)
    case Stop => LeavesPurchase(r, after)
  }

  lemma DeliveryOutcomes(cfg: Settings, r: Rec, hold: bool)
    requires WellFormed(cfg, r)
    ensures var res := BeginDelivery(cfg, r, hold); res.Ok? ==> DeliveryOutcome(r, res.value.0, res.value.1)
  {
    hide StatusNotes;
  }

  /** The shape of every committed application of a provider answer. */
  predicate ApplyOutcome(r: Rec, res: PurchaseResult, after: Rec) {
    && r.attempt.Some? && after.attempt.Some?
    && (after == r || !after.attempt.value.status.Submitting?)
    && (after.attempt.value.status.Submitting? ==> r.order.status.Completed?)
    && (after.attempt.value.status.AttemptFailed? ==> IsDefiniteFailure(res))
    && (PastPurchase(after.order.status) && !after.order.status.Completed? && !after.order.status.StarsSending?
        && !after.order.status.PurchaseProcessing? ==>
          after.order.status == r.order.status || IsDefiniteFailure(res))
    && (|| after.attempt.value.requestId == r.attempt.value.requestId
        || (StoresRequest(r, res) && after.attempt.value.requestId == res.requestId))
  }

  predicate CompletionFits(r: Rec) {
    r.order.status.Completed? && r.attempt.Some? ==> r.attempt.value.status.AttemptSucceeded?
  }

  lemma QueuedOutcomes(r: Rec, res: PurchaseResult, clash: bool, stale: bool)
    requires CompletionFits(r) && IsQueued(res)
    ensures var after := ApplyResult(r, res, clash, stale); after.Ok? ==> ApplyOutcome(r, res, after.value)
  {
    hide StatusNotes;
  }

  lemma SuccessOutcomes(r: Rec, res: PurchaseResult, clash: bool, stale: bool)
    requires CompletionFits(r) && !IsQueued(res) && res.succeeded
    ensures var after := ApplyResult(r, res, clash, stale); after.Ok? ==> ApplyOutcome(r, res, after.value)
  {
    hide StatusNotes;
  }

  lemma FailureOutcomes(r: Rec, res: PurchaseResult, clash: bool, stale: bool)
    requires CompletionFits(r) && !IsQueued(res) && !res.succeeded
    ensures var after := ApplyResult(r, res, clash, stale); after.Ok? ==> ApplyOutcome(r, res, after.value)
  {
    hide StatusNotes;
  }

  lemma ApplyOutcomes(cfg: Settings, r: Rec, res: PurchaseResult, clash: bool, stale: bool)
    requires WellFormed(cfg, r)
    ensures var after := ApplyResult(r, res, clash, stale); after.Ok? ==> ApplyOutcome(r, res, after.value)
  {
    assert CompletionFits(r);
    hide ApplyResult, ApplyOutcome, WellFormed;
    if IsQueued(res) { QueuedOutcomes(r, res, clash, stale); }
    else if res.succeeded { SuccessOutcomes(r, res, clash, stale); }
    else { FailureOutcomes(r, res, clash, stale); }
  }

  /** While the retry token is live, the answer to a purchase can only be refused for a reused request identifier. */
  lemma LiveAnswerCommits(cfg: Settings, r: Rec, res: PurchaseResult, clash: bool, stale: bool)
    requires WellFormed(cfg, r) && r.attempt.Some? && HoldsRetryToken(r.attempt.value)
    requires r.order.status.PurchaseProcessing? || r.order.status.StarsSending?
    requires !(IsQueued(res) && clash)
    ensures ApplyResult(r, res, clash, stale).Ok?
  {
    hide StatusNotes;
  }

  lemma ReconciliationOutcomes(cfg: Settings, r: Rec)
    requires WellFormed(cfg, r)
    ensures var res := BeginReconciliation(cfg, r);
            res.Ok? && res.value.1.Some? ==>
              res.value.0 == r && r.attempt.Some? && r.attempt.value.requestId == res.value.1
  {
    hide StatusNotes;
  }

  lemma ApprovalOutcomes(cfg: Settings, r: Rec)
    requires WellFormed(cfg, r)
    ensures var res := ApproveBalanceRetry(r);
            res.Ok? ==>
              && r.attempt.Some?
              && res.value.attempt
                 == Some(r.attempt.value.(status := Submitting, errorCode := Some(BalanceRetryApproved)))
  {
    hide StatusNotes;
  }
}
