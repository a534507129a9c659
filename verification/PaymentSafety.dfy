/** Money: confirmed payments are permanent, and every POST to the payment provider is repeatable. */
module PaymentSafety {
  import opened Domain
  import opened Ledger
  import opened OrderFlow
  import opened OrderInvariants
  import opened OrderPersistence
  import opened OrderSafety
  import opened Protocol
  import opened PurchaseSafety

  predicate FailedYoo(r: Rec) {
    r.order.status.PaymentFailed? && r.order.payType == Some(YooPay)
  }

  /** What the order's only charge is made of. */
  function TheCharge(r: Rec): ChargePost {
    ChargePost(ChargeKey(r.order.info.number), r.order.info.rubAmount)
  }

  /** The call returns the whole stored payment under the order's own key. */
  predicate IsTheRefund(r: Rec, call: RefundCall) {
    && Confirmed(r) && IsYoo(r)
    && r.payment.value.reference.ProviderReference? && call.paymentId == r.payment.value.reference
    && call.amount == r.payment.value.terms.expected
    && call.key == RefundKey(r.order.info.number)
  }

  predicate IsCall(task: Task) {
    task.ChargePermit? || IsRefund(task)
  }

  predicate CallFits(r: Rec, task: Task) {
    match task
    case ChargePermit(key, amount) => ChargePost(key, amount) == TheCharge(r)
    case RefundPermit(call) => IsTheRefund(r, call)
    case RefundSent(call) => IsTheRefund(r, call)
    case _ => true
  }

  ghost predicate Billed(c: Cell) {
    && (forall i :: 0 <= i < |c.tally.charges| ==> c.tally.charges[i] == TheCharge(c.rec))
    && (forall i :: 0 <= i < |c.tally.refunds| ==> IsTheRefund(c.rec, c.tally.refunds[i]))
    && (forall t :: t in c.tasks ==> CallFits(c.rec, c.tasks[t]))
  }

  /** A yookassa order only fails after a cancellation, and is confirmed as well only when success followed it. */
  predicate Explained(c: Cell) {
    && (FailedYoo(c.rec) ==> c.tally.cancelSeen)
    && (FailedYoo(c.rec) && Confirmed(c.rec) ==> c.tally.flipped)
  }

  lemma CallsPersist(r: Rec, after: Rec, task: Task)
    requires Persists(r, after) && CallFits(r, task)
    ensures CallFits(after, task)
  {
  }

  /** Old calls keep fitting, so only the calls a step adds have to be checked. */
  lemma BilledPersists(c: Cell, after: Cell)
    requires Billed(c) && Persists(c.rec, after.rec)
    requires forall t :: t in after.tasks && IsCall(after.tasks[t]) ==>
                           (t in c.tasks && after.tasks[t] == c.tasks[t]) || CallFits(after.rec, after.tasks[t])
    requires
      || after.tally.charges == c.tally.charges
      || after.tally.charges == c.tally.charges + [TheCharge(c.rec)]
    requires
      || after.tally.refunds == c.tally.refunds
      || exists call :: IsTheRefund(c.rec, call) && after.tally.refunds == c.tally.refunds + [call]
    ensures Billed(after)
  {
    assert TheCharge(after.rec) == TheCharge(c.rec);
    forall t | t in after.tasks ensures CallFits(after.rec, after.tasks[t]) {
      if t in c.tasks && after.tasks[t] == c.tasks[t] { CallsPersist(c.rec, after.rec, c.tasks[t]); }
    }
    forall call | IsTheRefund(c.rec, call) ensures IsTheRefund(after.rec, call) {
      CallsPersist(c.rec, after.rec, RefundPermit(call));
    }
  }

  lemma NewCallsFit(cfg: Settings, r: Rec, now: int, expiresAt: int)
    requires WellFormed(cfg, r)
    ensures var res := InitiateYoo(r, now, expiresAt);
            res.Ok? && res.value.1.Charge? ==>
              CallFits(res.value.0, ChargePermit(res.value.1.key, res.value.1.amount))
    ensures var res := BeginRefund(r); res.Ok? ==> IsTheRefund(res.value.0, res.value.1)
  {
  }

  predicate AddsCall(e: Event) {
    e.StartCharge? || e.SendCharge? || e.StartRefund? || e.SendRefund?
  }

  /** Events that end a task, or leave every task as it is. */
  predicate Ends(e: Event) {
    e.Transact? || e.EndTest? || e.Apply? || e.Approve? || e.EndRefund? || e.ProviderDelivers? || e.Crash?
  }

  ghost predicate SameCallsSent(c: Cell, after: Cell) {
    after.tally.charges == c.tally.charges && after.tally.refunds == c.tally.refunds
  }

  lemma EndingSendsNoCall(cfg: Settings, c: Cell, e: Event)
    requires Ends(e)
    ensures SameCallsSent(c, Step(cfg, c, e))
  {
    hide Execute, ApplyResult, ApproveBalanceRetry, EndTestConfirmation, FinishRefund, RefundMatches, IsQueued, Drop;
  }

  lemma StartingSendsNoCall(cfg: Settings, c: Cell, e: Event)
    requires !Ends(e) && !AddsCall(e)
    ensures SameCallsSent(c, Step(cfg, c, e))
  {
    if e.StartDelivery? { DeliveryTally(cfg, c, e.task, e.hold); }
    hide StepDelivery, BeginReconciliation, BeginTestConfirmation, IsDefiniteFailure, DeliveryRunning, Drop;
  }

  ghost predicate NoNewCall(c: Cell, after: Cell) {
    forall t :: t in after.tasks && IsCall(after.tasks[t]) ==> t in c.tasks && after.tasks[t] == c.tasks[t]
  }

  lemma EndingAddsNoCall(cfg: Settings, c: Cell, e: Event)
    requires Ends(e)
    ensures NoNewCall(c, Step(cfg, c, e))
  {
    hide Execute, ApplyResult, ApproveBalanceRetry, EndTestConfirmation, FinishRefund, RefundMatches, Observe;
  }

  lemma StartingAddsNoCall(cfg: Settings, c: Cell, e: Event)
    requires !Ends(e) && !AddsCall(e)
    ensures NoNewCall(c, Step(cfg, c, e))
  {
    hide BeginDelivery, BeginReconciliation, BeginTestConfirmation, IsDefiniteFailure, DeliveryRunning, Hear;
  }

  lemma QuietStep(cfg: Settings, c: Cell, e: Event)
    requires !AddsCall(e)
    ensures SameCallsSent(c, Step(cfg, c, e)) && NoNewCall(c, Step(cfg, c, e))
  {
    hide Step, NoNewCall, SameCallsSent;
    if Ends(e) {
      EndingSendsNoCall(cfg, c, e);
      EndingAddsNoCall(cfg, c, e);
    } else {
      StartingSendsNoCall(cfg, c, e);
      StartingAddsNoCall(cfg, c, e);
    }
  }

  /** The call a worker is about to send is one of those that fit. */
  lemma AskedCallsFit(c: Cell, e: Event)
    requires Billed(c)
    ensures e.SendCharge? && e.task in c.tasks ==> CallFits(c.rec, c.tasks[e.task])
    ensures e.SendRefund? && e.task in c.tasks ==> CallFits(c.rec, c.tasks[e.task])
  {
  }

  lemma QuietKeepsBilled(cfg: Settings, c: Cell, e: Event)
    requires Billed(c) && !AddsCall(e) && Persists(c.rec, Step(cfg, c, e).rec)
    ensures Billed(Step(cfg, c, e))
  {
    QuietStep(cfg, c, e);
    hide Billed, Persists, Step;
    BilledPersists(c, Step(cfg, c, e));
  }

  lemma ChargingKeepsBilled(cfg: Settings, c: Cell, e: Event)
    requires WellFormed(cfg, c.rec) && Billed(c) && Enabled(cfg, c, e) && (e.StartCharge? || e.SendCharge?)
    requires Persists(c.rec, Happen(cfg, c, e).rec)
    ensures Billed(Happen(cfg, c, e))
  {
    NewCallsFit(cfg, c.rec, if e.StartCharge? then e.now else 0, if e.StartCharge? then e.expiresAt else 0);
    AskedCallsFit(c, e);
    hide WellFormed, Persists, InitiateYoo, BeginRefund, Billed;
    BilledPersists(c, Happen(cfg, c, e));
  }

  lemma RefundingKeepsBilled(cfg: Settings, c: Cell, e: Event)
    requires WellFormed(cfg, c.rec) && Billed(c) && Enabled(cfg, c, e) && (e.StartRefund? || e.SendRefund?)
    requires Persists(c.rec, Happen(cfg, c, e).rec)
    ensures Billed(Happen(cfg, c, e))
  {
    NewCallsFit(cfg, c.rec, 0, 0);
    AskedCallsFit(c, e);
    hide WellFormed, Persists, InitiateYoo, BeginRefund, Billed;
    BilledPersists(c, Happen(cfg, c, e));
  }

  lemma StepKeepsBilled(cfg: Settings, c: Cell, e: Event)
    requires Sound(cfg, c.rec) && Billed(c)
    ensures Billed(Step(cfg, c, e))
  {
    hide Happen, Billed, Persists, WellFormed, Chronicle;
    StepKeeps(cfg, c, e);
    if Enabled(cfg, c, e) {
      if e.StartCharge? || e.SendCharge? { ChargingKeepsBilled(cfg, c, e); }
      else if e.StartRefund? || e.SendRefund? { RefundingKeepsBilled(cfg, c, e); }
      else { QuietKeepsBilled(cfg, c, e); }
    }
  }

  /** What a transaction may do to an order that fails. */
  predicate IsExplained(r: Rec, op: Op, after: Rec) {
    FailedYoo(after) ==>
      && (FailedYoo(r) || (op.Snap? && op.snap.status.SnapCanceled?))
      && (Confirmed(after) ==> FailedYoo(r) && (Confirmed(r) || (op.Snap? && op.snap.status.SnapSucceeded?)))
  }

  lemma OtherExplained(cfg: Settings, r: Rec, op: Op)
    requires WellFormed(cfg, r) && !op.Snap? && !op.SeeTon?
    ensures var res := Execute(cfg, r, op); res.Ok? ==> IsExplained(r, op, res.value)
  {
    hide StatusNotes, ApplySnapshot, RecordTonObservation;
  }

  lemma SightingExplained(cfg: Settings, r: Rec, op: Op)
    requires op.SeeTon?
    ensures var res := Execute(cfg, r, op); res.Ok? ==> IsExplained(r, op, res.value)
  {
    if AwaitsTon(r) {
      TonKeepsPayType(cfg, r, op.seen, op.now, op.clash, op.stale);
      hide RecordTonObservation;
    } else {
      hide SettleTon, RecordDetection, ReviewPayment, Review;
    }
  }

  /** Only a cancelled snapshot fails a yookassa order, and only a succeeded one confirms a failed order. */
  lemma FailuresExplained(cfg: Settings, r: Rec, op: Op)
    requires WellFormed(cfg, r)
    ensures var res := Execute(cfg, r, op); res.Ok? ==> IsExplained(r, op, res.value)
  {
    if op.Snap? {
      SnapshotExplained(r, op.snap, op.clash);
      hide ApplySnapshot;
    } else {
      hide Execute, IsExplained;
      if op.SeeTon? { SightingExplained(cfg, r, op); } else { OtherExplained(cfg, r, op); }
    }
  }

  lemma ReviewKeepsPayType(r: Rec, code: Code)
    ensures Review(r, code).Ok? ==> Review(r, code).value.order.payType == r.order.payType
    ensures ReviewPayment(r, code).Ok? ==> ReviewPayment(r, code).value.order.payType == r.order.payType
  {
    hide StatusNotes;
  }

  lemma ConfirmKeepsPayType(cfg: Settings, r: Rec, seen: Sighting, now: int)
    ensures var res := ConfirmTon(cfg, r, seen, now); res.Ok? ==> res.value.order.payType == r.order.payType
  {
    hide StatusNotes;
  }

  lemma SettlingKeepsPayType(cfg: Settings, r: Rec, seen: Sighting, now: int)
    requires r.order.invoice.Some?
    ensures var res := SettleTon(cfg, r, seen, now); res.Ok? ==> res.value.order.payType == r.order.payType
  {
    hide ReviewPayment, ConfirmTon;
    ConfirmKeepsPayType(cfg, r, seen, now);
    if TonProblem(r, seen).Some? { ReviewKeepsPayType(r, TonProblem(r, seen).value); }
  }

  lemma TonKeepsPayType(cfg: Settings, r: Rec, seen: Observation, now: int, clash: bool, stale: bool)
    requires AwaitsTon(r)
    ensures var res := RecordTonObservation(cfg, r, seen, now, clash, stale);
            res.Ok? ==> res.value.order.payType == Some(TonPay)
  {
    hide Review, ReviewPayment, SettleTon;
    ReviewKeepsPayType(r, PaymentRouteMismatch);
    ReviewKeepsPayType(r, DuplicatePaymentTransaction);
    ReviewKeepsPayType(r, MultiplePaymentTransactions);
    SettlingKeepsPayType(cfg, r, seen, now);
    var linked := RecordDetection(r, seen.hash, seen.amount, clash, stale);
    if linked.Ok? && linked.value.Some? { SettlingKeepsPayType(cfg, linked.value.value, seen, now); }
  }

  lemma UnsettledStays(r: Rec, snap: Snapshot)
    requires r.payment.Some? && !snap.status.SnapSucceeded?
    ensures
      var res := TransitionYooStatus(r, snap);
      res.Ok? ==> !Confirmed(res.value) && (FailedYoo(res.value) ==> FailedYoo(r) || snap.status.SnapCanceled?)
  {
    hide StatusNotes;
  }

  lemma UnsettledExplained(r: Rec, snap: Snapshot, clash: bool)
    requires !snap.status.SnapSucceeded?
    ensures
      var res := ApplySnapshot(r, snap, clash);
      res.Ok? ==> !Confirmed(res.value) && (FailedYoo(res.value) ==> FailedYoo(r) || snap.status.SnapCanceled?)
  {
    hide TransitionYooStatus, Confirmed;
    if IsYoo(r) { UnsettledStays(Synced(r, snap), snap); }
  }

  lemma SnapshotExplained(r: Rec, snap: Snapshot, clash: bool)
    ensures
      var res := ApplySnapshot(r, snap, clash);
      res.Ok? && FailedYoo(res.value) ==>
        && (FailedYoo(r) || snap.status.SnapCanceled?)
        && (Confirmed(res.value) ==> FailedYoo(r) && (Confirmed(r) || snap.status.SnapSucceeded?))
  {
    hide ApplySnapshot;
    if snap.status.SnapSucceeded? { SuccessFailsNothing(r, snap, clash); } else { UnsettledExplained(r, snap, clash); }
  }

  lemma SuccessKeepsFailed(r: Rec, snap: Snapshot)
    requires snap.status.SnapSucceeded?
    ensures var res := TransitionYooStatus(r, snap); res.Ok? && FailedYoo(res.value) ==> FailedYoo(r)
  {
    hide StatusNotes;
  }

  lemma SuccessFailsNothing(r: Rec, snap: Snapshot, clash: bool)
    requires snap.status.SnapSucceeded?
    ensures var res := ApplySnapshot(r, snap, clash); res.Ok? && FailedYoo(res.value) ==> FailedYoo(r)
  {
    if IsYoo(r) { SuccessKeepsFailed(Synced(r, snap), snap); }
    hide TransitionYooStatus;
  }

  /** `after` fails or confirms nothing that `r` did not. */
  predicate NoNewFailure(r: Rec, after: Rec) {
    && (FailedYoo(after) ==> FailedYoo(r))
    && (FailedYoo(after) && Confirmed(after) ==> Confirmed(r))
  }

  lemma PurchaseFailsNothing(cfg: Settings, r: Rec, hold: bool)
    ensures var res := BeginDelivery(cfg, r, hold); res.Ok? ==> NoNewFailure(r, res.value.0)
    ensures var res := BeginReconciliation(cfg, r); res.Ok? ==> NoNewFailure(r, res.value.0)
    ensures var res := ApproveBalanceRetry(r); res.Ok? ==> NoNewFailure(r, res.value)
  {
    hide StatusNotes, PurchaseValidationError;
  }

  lemma AnswerFailsNothing(r: Rec, res: PurchaseResult, clash: bool, stale: bool)
    ensures var after := ApplyResult(r, res, clash, stale); after.Ok? ==> NoNewFailure(r, after.value)
  {
    hide StatusNotes;
  }

  lemma TestFailsNothing(cfg: Settings, r: Rec, succeeded: bool)
    requires WellFormed(cfg, r) && cfg.testMode
    ensures var res := EndTestConfirmation(r, succeeded); res.Ok? ==> NoNewFailure(r, res.value)
  {
    hide StatusNotes;
  }

  lemma ChargeFailsNothing(r: Rec, now: int, expiresAt: int)
    ensures var res := InitiateYoo(r, now, expiresAt); res.Ok? ==> NoNewFailure(r, res.value.0)
  {
    hide StatusNotes;
  }

  lemma ConfirmationFailsNothing(cfg: Settings, r: Rec)
    ensures var res := BeginTestConfirmation(cfg, r); res.Ok? ==> NoNewFailure(r, res.value.0)
  {
    hide StatusNotes;
  }

  lemma PaymentFailsNothing(cfg: Settings, r: Rec, succeeded: bool, now: int, expiresAt: int)
    requires WellFormed(cfg, r)
    ensures var res := InitiateYoo(r, now, expiresAt); res.Ok? ==> NoNewFailure(r, res.value.0)
    ensures var res := BeginTestConfirmation(cfg, r); res.Ok? ==> NoNewFailure(r, res.value.0)
    ensures cfg.testMode ==>
              var res := EndTestConfirmation(r, succeeded); res.Ok? ==> NoNewFailure(r, res.value)
  {
    hide InitiateYoo, BeginTestConfirmation, EndTestConfirmation, NoNewFailure;
    ChargeFailsNothing(r, now, expiresAt);
    ConfirmationFailsNothing(cfg, r);
    if cfg.testMode { TestFailsNothing(cfg, r, succeeded); }
  }

  lemma RefundFailsNothing(r: Rec, refund: Refund, clash: bool)
    ensures var res := BeginRefund(r); res.Ok? ==> NoNewFailure(r, res.value.0)
    ensures var res := FinishRefund(r, refund, clash); res.Ok? ==> NoNewFailure(r, res.value)
  {
  }

  ghost predicate SameSnapshotsSeen(c: Cell, after: Cell) {
    after.tally.cancelSeen == c.tally.cancelSeen && after.tally.flipped == c.tally.flipped
  }

  lemma EndingsSeeNothing(cfg: Settings, c: Cell, e: Event)
    requires !e.Transact? && Ends(e) && Enabled(cfg, c, e)
    ensures SameSnapshotsSeen(c, Happen(cfg, c, e))
  {
    hide ApproveBalanceRetry, ApplyResult, EndTestConfirmation, FinishRefund, RefundMatches, IsQueued, Drop;
  }

  lemma StartsSeeNothing(cfg: Settings, c: Cell, e: Event)
    requires !Ends(e) && Enabled(cfg, c, e)
    ensures SameSnapshotsSeen(c, Happen(cfg, c, e))
  {
    if e.StartDelivery? { DeliveryTally(cfg, c, e.task, e.hold); }
    hide StepDelivery, BeginReconciliation, BeginTestConfirmation, IsDefiniteFailure, DeliveryRunning, Drop;
    hide BeginRefund, InitiateYoo;
  }

  lemma OtherStepsSeeNothing(cfg: Settings, c: Cell, e: Event)
    requires !e.Transact? && Enabled(cfg, c, e)
    ensures SameSnapshotsSeen(c, Happen(cfg, c, e))
  {
    hide Happen, SameSnapshotsSeen;
    if Ends(e) { EndingsSeeNothing(cfg, c, e); } else { StartsSeeNothing(cfg, c, e); }
  }

  lemma OtherStepsFailNothing(cfg: Settings, c: Cell, e: Event)
    requires WellFormed(cfg, c.rec) && !e.Transact? && Enabled(cfg, c, e)
    ensures NoNewFailure(c.rec, Happen(cfg, c, e).rec)
  {
    hide WellFormed, NoNewFailure, BeginDelivery, BeginReconciliation, ApproveBalanceRetry, ApplyResult, InitiateYoo;
    hide BeginTestConfirmation, EndTestConfirmation, BeginRefund, FinishRefund;
    NothingFailsNothing(c.rec);
    match e {
      case StartDelivery(_, hold) => PurchaseFailsNothing(cfg, c.rec, hold);
      case StartReconciliation(_) => PurchaseFailsNothing(cfg, c.rec, false);
      case Approve(_) => PurchaseFailsNothing(cfg, c.rec, false);
      case Apply(t, clash, stale) => AnswerFailsNothing(c.rec, c.tasks[t].result, clash, stale);
      case StartCharge(_, now, expiresAt) => PaymentFailsNothing(cfg, c.rec, false, now, expiresAt);
      case StartTest(_) => PaymentFailsNothing(cfg, c.rec, false, 0, 0);
      case EndTest(_, succeeded) => PaymentFailsNothing(cfg, c.rec, succeeded, 0, 0);
      case StartRefund(_) => RefundFailsNothing(c.rec, Refund("", "", RefundPending, 0, ""), false);
      case EndRefund(_, refund, clash) => RefundFailsNothing(c.rec, refund, clash);
      case _ =>
    }
  }

  lemma NothingFailsNothing(r: Rec)
    ensures NoNewFailure(r, r)
  {
  }

  lemma StepKeepsExplained(cfg: Settings, c: Cell, e: Event)
    requires Sound(cfg, c.rec) && Explained(c)
    ensures Explained(Step(cfg, c, e))
  {
    hide Execute, WellFormed, FailedYoo, Confirmed;
    if Enabled(cfg, c, e) {
      if e.Transact? {
        FailuresExplained(cfg, c.rec, e.op);
      } else {
        OtherStepsSeeNothing(cfg, c, e);
        OtherStepsFailNothing(cfg, c, e);
        hide Happen;
      }
    }
  }

  lemma {:induction false} RunKeepsPayments(cfg: Settings, info: OrderInfo, testPaymentId: string, events: seq<Event>)
    requires ValidRequest(cfg, info)
    ensures var c := Run(cfg, Begin(cfg, info, testPaymentId), events); Billed(c) && Explained(c)
  {
    var start := Begin(cfg, info, testPaymentId);
    if events != [] {
      var earlier := events[..|events| - 1];
      BeginIsSound(cfg, info, testPaymentId);
      RunKeeps(cfg, start, earlier);
      RunKeepsPayments(cfg, info, testPaymentId, earlier);
      StepKeepsBilled(cfg, Run(cfg, start, earlier), events[|events| - 1]);
      StepKeepsExplained(cfg, Run(cfg, start, earlier), events[|events| - 1]);
    }
  }
}
