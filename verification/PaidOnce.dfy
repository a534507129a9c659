/** An order enters PAID at most once, however its payment was made. */
module PaidOnce {
  import opened Domain
  import opened Ledger
  import opened OrderFlow
  import opened OrderInvariants
  import opened OrderPersistence
  import opened OrderSafety
  import opened OrderTheorems
  import opened Protocol
  import opened YooConvergence

  /** The log only grows, counts the entries into PAID, and only an order that was not paid before can enter it. */
  ghost predicate CountsPaid(r: Rec, after: Rec) {
    && r.log <= after.log
    && PaidEntries(after.log) == PaidEntries(r.log) + (if after.order.status.Paid? && !r.order.status.Paid? then 1 else 0)
    && (after.order.status.Paid? ==> r.order.status.Paid? || Unpaid(r.order.status))
  }

  lemma TransitionsCountPaid()
    ensures forall r, target, code {:trigger Transition(r, target, code)} ::
              Transition(r, target, code).Ok? ==>
                && r.log <= Transition(r, target, code).value.log
                && PaidEntries(Transition(r, target, code).value.log)
                   == PaidEntries(r.log) + if target.Paid? && !r.order.status.Paid? then 1 else 0
  {
    forall r, target, code | Transition(r, target, code).Ok?
      ensures r.log <= Transition(r, target, code).value.log
      ensures PaidEntries(Transition(r, target, code).value.log)
              == PaidEntries(r.log) + if target.Paid? && !r.order.status.Paid? then 1 else 0
    {
      TransitionCountsPaid(r, target, code);
    }
  }

  lemma SucceededCounts(r: Rec, snap: Snapshot)
    requires snap.status.SnapSucceeded?
    ensures var res := TransitionYooStatus(r, snap); res.Ok? ==> CountsPaid(r, res.value)
  {
    hide PaidEntries;
    TransitionsCountPaid();
  }

  lemma OtherStatusCounts(r: Rec, snap: Snapshot)
    requires !snap.status.SnapSucceeded?
    ensures var res := TransitionYooStatus(r, snap); res.Ok? ==> CountsPaid(r, res.value)
  {
    hide PaidEntries;
    TransitionsCountPaid();
  }

  lemma SnapshotCounts(r: Rec, snap: Snapshot, clash: bool)
    ensures var res := ApplySnapshot(r, snap, clash); res.Ok? ==> CountsPaid(r, res.value)
  {
    hide PaidEntries, TransitionYooStatus;
    if IsYoo(r) {
      if snap.status.SnapSucceeded? { SucceededCounts(Synced(r, snap), snap); } else { OtherStatusCounts(Synced(r, snap), snap); }
    }
  }

  lemma SettlingCounts(cfg: Settings, r: Rec, seen: Sighting, now: int)
    requires r.order.invoice.Some?
    ensures var res := SettleTon(cfg, r, seen, now); res.Ok? && AwaitsTon(r) ==> CountsPaid(r, res.value)
  {
    hide PaidEntries;
    TransitionsCountPaid();
  }

  lemma ObservationCounts(cfg: Settings, r: Rec, seen: Sighting, now: int, clash: bool, stale: bool)
    ensures var res := RecordTonObservation(cfg, r, seen, now, clash, stale); res.Ok? ==> CountsPaid(r, res.value)
  {
    hide PaidEntries, SettleTon;
    TransitionsCountPaid();
    if AwaitsTon(r) {
      SettlingCounts(cfg, r, seen, now);
      var linked := RecordDetection(r, seen.hash, seen.amount, clash, stale);
      if linked.Ok? && linked.value.Some? { SettlingCounts(cfg, linked.value.value, seen, now); }
    }
  }

  lemma ClosingCounts(r: Rec, now: int)
    ensures var res := ExpireIfNeeded(r, now); res.Ok? ==> CountsPaid(r, res.value)
    ensures var res := CancelOrder(r); res.Ok? ==> CountsPaid(r, res.value)
    ensures var res := AdminReview(r); res.Ok? ==> CountsPaid(r, res.value)
    ensures CountsPaid(r, Resend(r))
  {
    hide PaidEntries;
    TransitionsCountPaid();
  }

  lemma SetupCounts(r: Rec, amount: int, comment: string, destination: string, expiresAt: int)
    ensures var res := SetupTonPayment(r, amount, comment, destination, expiresAt); res.Ok? ==> CountsPaid(r, res.value)
  {
    hide PaidEntries;
    TransitionsCountPaid();
  }

  lemma NoticeCounts(r: Rec, refund: Refund)
    ensures var res := SyncRefund(r, refund); res.Ok? ==> CountsPaid(r, res.value)
    ensures var res := MarkRefunded(r); res.Ok? ==> CountsPaid(r, res.value)
  {
    hide PaidEntries;
    TransitionsCountPaid();
  }

  lemma ExecuteCounts(cfg: Settings, r: Rec, op: Op)
    ensures var res := Execute(cfg, r, op); res.Ok? ==> CountsPaid(r, res.value)
  {
    hide ApplySnapshot, RecordTonObservation, SetupTonPayment, ExpireIfNeeded, CancelOrder, AdminReview, Resend, SyncRefund;
    hide MarkRefunded, CountsPaid;
    match op
    case Snap(snap, clash) => SnapshotCounts(r, snap, clash);
    case SeeTon(seen, now, clash, stale) => ObservationCounts(cfg, r, seen, now, clash, stale);
    case SetupTon(amount, comment, destination, expiresAt) => SetupCounts(r, amount, comment, destination, expiresAt);
    case Expire(now) => ClosingCounts(r, now);
    case SyncRefundNotice(refund) => NoticeCounts(r, refund);
    case ConfirmRefund => NoticeCounts(r, Refund("", "", RefundPending, 0, ""));
    case _ => ClosingCounts(r, 0);
  }

  lemma PaymentCounts(cfg: Settings, r: Rec, now: int, expiresAt: int, succeeded: bool)
    ensures var res := InitiateYoo(r, now, expiresAt); res.Ok? ==> CountsPaid(r, res.value.0)
    ensures var res := BeginTestConfirmation(cfg, r); res.Ok? ==> CountsPaid(r, res.value.0)
    ensures var res := EndTestConfirmation(r, succeeded); res.Ok? ==> CountsPaid(r, res.value)
  {
    hide PaidEntries;
    TransitionsCountPaid();
  }

  lemma PurchaseCounts(cfg: Settings, r: Rec, hold: bool)
    ensures var res := BeginDelivery(cfg, r, hold); res.Ok? ==> CountsPaid(r, res.value.0)
    ensures var res := BeginReconciliation(cfg, r); res.Ok? ==> CountsPaid(r, res.value.0)
    ensures var res := ApproveBalanceRetry(r); res.Ok? ==> CountsPaid(r, res.value)
    ensures var res := BeginRefund(r); res.Ok? ==> CountsPaid(r, res.value.0)
  {
    hide PaidEntries, PurchaseValidationError;
    TransitionsCountPaid();
  }

  lemma QueuedCounts(r: Rec, res: PurchaseResult, clash: bool, stale: bool)
    requires IsQueued(res)
    ensures var after := ApplyResult(r, res, clash, stale); after.Ok? ==> CountsPaid(r, after.value)
  {
    hide PaidEntries, StatusNotes, MarkSucceeded, MarkFailed, MarkWaitingForBalance, Advance;
    TransitionsCountPaid();
  }

  lemma CompletionCounts(r: Rec, attempt: Attempt, txId: string, clash: bool, stale: bool)
    ensures var after := MarkSucceeded(r, attempt, txId, clash, stale);
            after.Ok? ==>
              && r.log <= after.value.log && PaidEntries(after.value.log) == PaidEntries(r.log)
              && !after.value.order.status.Paid?
  {
    hide PaidEntries, StatusNotes;
    TransitionsCountPaid();
  }

  lemma SuccessCounts(r: Rec, res: PurchaseResult, clash: bool, stale: bool)
    requires !IsQueued(res) && res.succeeded && Truthy(res.txId)
    ensures var after := ApplyResult(r, res, clash, stale); after.Ok? ==> CountsPaid(r, after.value)
  {
    hide PaidEntries, StatusNotes, MarkSucceeded, MarkQueued, MarkFailed, MarkWaitingForBalance;
    TransitionsCountPaid();
    if r.attempt.Some? {
      var sending := Advance(r, PurchaseProcessing, StarsSending);
      if sending.Ok? { CompletionCounts(sending.value, sending.value.attempt.value, res.txId.value, clash, stale); }
    }
  }

  lemma FailureCounts(r: Rec, res: PurchaseResult, clash: bool, stale: bool)
    requires !IsQueued(res) && !(res.succeeded && Truthy(res.txId))
    ensures var after := ApplyResult(r, res, clash, stale); after.Ok? ==> CountsPaid(r, after.value)
  {
    hide PaidEntries, StatusNotes, MarkSucceeded, MarkQueued, Advance;
    TransitionsCountPaid();
  }

  lemma AnswerCounts(r: Rec, res: PurchaseResult, clash: bool, stale: bool)
    ensures var after := ApplyResult(r, res, clash, stale); after.Ok? ==> CountsPaid(r, after.value)
  {
    hide ApplyResult, CountsPaid;
    if IsQueued(res) { QueuedCounts(r, res, clash, stale); }
    else if res.succeeded && Truthy(res.txId) { SuccessCounts(r, res, clash, stale); }
    else { FailureCounts(r, res, clash, stale); }
  }

  lemma RefundCounts(r: Rec, refund: Refund, clash: bool)
    ensures var res := FinishRefund(r, refund, clash); res.Ok? ==> CountsPaid(r, res.value)
  {
    hide PaidEntries;
    TransitionsCountPaid();
  }

  lemma StepCounts(cfg: Settings, c: Cell, e: Event)
    ensures CountsPaid(c.rec, Step(cfg, c, e).rec)
  {
    hide CountsPaid, Execute, BeginDelivery, ApplyResult, FinishRefund, InitiateYoo, BeginTestConfirmation;
    hide EndTestConfirmation, BeginReconciliation, ApproveBalanceRetry, BeginRefund;
    NothingCounts(c.rec);
    if Enabled(cfg, c, e) {
      match e {
        case Transact(op) => ExecuteCounts(cfg, c.rec, op);
        case StartCharge(_, now, expiresAt) => PaymentCounts(cfg, c.rec, now, expiresAt, true);
        case StartTest(_) => PaymentCounts(cfg, c.rec, 0, 0, true);
        case EndTest(_, succeeded) => PaymentCounts(cfg, c.rec, 0, 0, succeeded);
        case StartDelivery(_, hold) => PurchaseCounts(cfg, c.rec, hold);
        case Apply(t, clash, stale) => AnswerCounts(c.rec, c.tasks[t].result, clash, stale);
        case EndRefund(_, refund, clash) => RefundCounts(c.rec, refund, clash);
        case _ => PurchaseCounts(cfg, c.rec, false);
      }
    }
  }

  lemma NothingCounts(r: Rec)
    ensures CountsPaid(r, r)
  {
  }

  lemma StepGrowsLog(cfg: Settings, c: Cell, e: Event)
    ensures c.rec.log <= Step(cfg, c, e).rec.log
  {
    StepCounts(cfg, c, e);
    hide Step, PaidEntries;
  }

  /** Nothing that the audit log ever said is taken back, savepoints and rollbacks included. */
  lemma {:induction false} LogIsAppended(cfg: Settings, c: Cell, events: seq<Event>)
    ensures c.rec.log <= Run(cfg, c, events).rec.log
  {
    if events != [] {
      LogIsAppended(cfg, c, events[..|events| - 1]);
      StepGrowsLog(cfg, Run(cfg, c, events[..|events| - 1]), events[|events| - 1]);
      hide Step;
    }
  }

  /** Each entry into PAID confirms the payment, and a confirmed payment is never unpaid again. */
  lemma {:induction false} PaidAtMostOnce(cfg: Settings, info: OrderInfo, testPaymentId: string, events: seq<Event>)
    requires ValidRequest(cfg, info)
    ensures
      var r := Reach(cfg, info, testPaymentId, events).rec;
      PaidEntries(r.log) == 0 || (PaidEntries(r.log) == 1 && Confirmed(r))
  {
    if events == [] {
      BeginCountsNone(cfg, info, testPaymentId);
    } else {
      var earlier := events[..|events| - 1];
      PaidAtMostOnce(cfg, info, testPaymentId, earlier);
      ReachIsSound(cfg, info, testPaymentId, earlier);
      ReachIsSound(cfg, info, testPaymentId, events);
      var before := Reach(cfg, info, testPaymentId, earlier);
      StepKeeps(cfg, before, events[|events| - 1]);
      StepCounts(cfg, before, events[|events| - 1]);
      hide Step, PaidEntries, Chronicle;
    }
  }

  lemma BeginCountsNone(cfg: Settings, info: OrderInfo, testPaymentId: string)
    ensures PaidEntries(Begin(cfg, info, testPaymentId).rec.log) == 0
  {
    TransitionsCountPaid();
    assert PaidEntries([]) == 0;
  }
}
