/** Facts about the rows of an order that hold in every reachable state. */
module OrderSafety {
  import opened Domain
  import opened Ledger
  import opened OrderFlow
  import opened OrderInvariants
  import opened OrderHistory
  import opened OrderPersistence
  import opened Protocol

  ghost predicate Sound(cfg: Settings, r: Rec) {
    WellFormed(cfg, r) && Chronicle(r)
  }

  lemma BeginIsSound(cfg: Settings, info: OrderInfo, testPaymentId: string)
    requires ValidRequest(cfg, info)
    ensures Sound(cfg, Begin(cfg, info, testPaymentId).rec)
  {
    CreatedRowsWellFormed(cfg, info, testPaymentId);
    CreatedRowsChronicle(cfg, info, testPaymentId);
  }

  lemma ExecuteKeeps(cfg: Settings, r: Rec, op: Op)
    requires Sound(cfg, r)
    ensures var res := Execute(cfg, r, op); res.Ok? ==> Sound(cfg, res.value) && Beside(r, res.value)
  {
    assert Unpaid(r.order.status) ==> !Confirmed(r);
    hide WellFormed, Chronicle, Beside, ApplySnapshot, RecordTonObservation, ExpireIfNeeded, CancelOrder;
    hide SetupTonPayment, SyncRefund, MarkRefunded, Resend;
    match op
    case SetupTon(amount, comment, destination, expiresAt) =>
      SetupTonKeeps(cfg, r, amount, comment, destination, expiresAt);
      SetupKeepsChronicle(r, amount, comment, destination, 0, expiresAt);
      SetupPersists(r, amount, comment, destination, 0, expiresAt);
    case Snap(snap, clash) =>
      SnapshotKeeps(cfg, r, snap, clash);
      SnapshotKeepsChronicle(r, snap, clash);
      SnapshotPersists(r, snap, clash);
    case SeeTon(seen, now, clash, stale) =>
      TonObservationKeeps(cfg, r, seen, now, clash, stale);
      ObservationKeepsChronicle(cfg, r, seen, now, clash, stale);
      ObservationPersists(cfg, r, seen, now, clash, stale);
    case Expire(now) =>
      ExpiryKeeps(cfg, r, now);
      ClosingKeepsChronicle(r, now);
      ClosingPersists(r, now);
    case Cancel =>
      CancelKeeps(cfg, r);
      ClosingKeepsChronicle(r, 0);
      ClosingPersists(r, 0);
    case SendToReview =>
      if Execute(cfg, r, op).Ok? { ReviewKeeps(cfg, r, AdminManualReview); }
      ClosingKeepsChronicle(r, 0);
      ClosingPersists(r, 0);
    case ResendNotice =>
      ResendKeeps(cfg, r);
      ResendKeepsChronicle(r);
      ClosingPersists(r, 0);
    case SyncRefundNotice(refund) =>
      SyncRefundKeeps(cfg, r, refund);
      RefundKeepsChronicle(r, refund, false);
      RefundPersists(r, refund, false);
    case ConfirmRefund =>
      MarkRefundedKeeps(cfg, r);
      RefundKeepsChronicle(r, Refund("", "", RefundPending, 0, ""), false);
      RefundPersists(r, Refund("", "", RefundPending, 0, ""), false);
  }

  lemma ChargeKeeps(cfg: Settings, r: Rec, now: int, expiresAt: int)
    requires Sound(cfg, r)
    ensures var res := InitiateYoo(r, now, expiresAt); res.Ok? ==> Sound(cfg, res.value.0) && Beside(r, res.value.0)
  {
    InitiateYooKeeps(cfg, r, now, expiresAt);
    SetupKeepsChronicle(r, 0, "", "", now, expiresAt);
    SetupPersists(r, 0, "", "", now, expiresAt);
  }

  lemma TestKeeps(cfg: Settings, r: Rec, succeeded: bool)
    requires Sound(cfg, r) && cfg.testMode
    ensures var res := BeginTestConfirmation(cfg, r); res.Ok? ==> Sound(cfg, res.value.0) && Beside(r, res.value.0)
    ensures var res := EndTestConfirmation(r, succeeded); res.Ok? ==> Sound(cfg, res.value) && Beside(r, res.value)
  {
    TestConfirmationKeeps(cfg, r, succeeded);
    TestConfirmationKeepsChronicle(cfg, r, succeeded);
    TestConfirmationPersists(cfg, r, succeeded);
  }

  lemma BeginDeliveryKeeps(cfg: Settings, r: Rec, hold: bool)
    requires Sound(cfg, r)
    ensures var res := BeginDelivery(cfg, r, hold); res.Ok? ==> Sound(cfg, res.value.0) && Persists(r, res.value.0)
  {
    DeliveryKeeps(cfg, r, hold);
    DeliveryKeepsChronicle(cfg, r, hold);
    DeliveryPersists(cfg, r, hold);
  }

  lemma ApplyKeeps(cfg: Settings, r: Rec, res: PurchaseResult, clash: bool, stale: bool)
    requires Sound(cfg, r)
    ensures var after := ApplyResult(r, res, clash, stale);
            after.Ok? ==> Sound(cfg, after.value) && Persists(r, after.value)
  {
    ResultKeeps(cfg, r, res, clash, stale);
    ResultKeepsChronicle(r, res, clash, stale);
    ResultPersists(r, res, clash, stale);
  }

  lemma ReconcileKeeps(cfg: Settings, r: Rec)
    requires Sound(cfg, r)
    ensures var res := BeginReconciliation(cfg, r); res.Ok? ==> Sound(cfg, res.value.0) && Beside(r, res.value.0)
  {
    ReconciliationKeeps(cfg, r);
    DeliveryKeepsChronicle(cfg, r, false);
    ReconciliationPersists(cfg, r);
  }

  lemma ApproveKeeps(cfg: Settings, r: Rec)
    requires Sound(cfg, r)
    ensures var res := ApproveBalanceRetry(r); res.Ok? ==> Sound(cfg, res.value) && Persists(r, res.value)
  {
    ApprovalKeeps(cfg, r);
    DeliveryKeepsChronicle(cfg, r, false);
    ApprovalPersists(r);
  }

  lemma StartRefundKeeps(cfg: Settings, r: Rec)
    requires Sound(cfg, r)
    ensures var res := BeginRefund(r); res.Ok? ==> Sound(cfg, res.value.0) && Beside(r, res.value.0)
  {
    var any := Refund("", "", RefundPending, 0, "");
    BeginRefundKeeps(cfg, r);
    RefundKeepsChronicle(r, any, false);
    RefundPersists(r, any, false);
  }

  lemma EndRefundKeeps(cfg: Settings, r: Rec, refund: Refund, clash: bool)
    requires Sound(cfg, r)
    ensures var res := FinishRefund(r, refund, clash); res.Ok? ==> Sound(cfg, res.value) && Beside(r, res.value)
  {
    FinishRefundKeeps(cfg, r, refund, clash);
    RefundKeepsChronicle(r, refund, clash);
    RefundPersists(r, refund, clash);
  }

  /** Each step keeps the rows sound and takes nothing back. */
  lemma StepKeeps(cfg: Settings, c: Cell, e: Event)
    requires Sound(cfg, c.rec)
    ensures Sound(cfg, Step(cfg, c, e).rec) && Persists(c.rec, Step(cfg, c, e).rec)
  {
    hide Sound, Persists, BeginDelivery, ApplyResult, Execute;
    PersistsReflexive(c.rec);
    var after := Step(cfg, c, e).rec;
    if Enabled(cfg, c, e) {
      match e {
        case Transact(op) => ExecuteKeeps(cfg, c.rec, op);
        case StartCharge(t, now, expiresAt) => ChargeKeeps(cfg, c.rec, now, expiresAt);
        case StartTest(t) => if cfg.testMode { TestKeeps(cfg, c.rec, true); }
        case EndTest(t, succeeded) => TestKeeps(cfg, c.rec, succeeded);
        case StartDelivery(t, hold) => BeginDeliveryKeeps(cfg, c.rec, hold);
        case Apply(t, clash, stale) => ApplyKeeps(cfg, c.rec, c.tasks[t].result, clash, stale);
        case StartReconciliation(t) => ReconcileKeeps(cfg, c.rec);
        case Approve(t) => ApproveKeeps(cfg, c.rec);
        case StartRefund(t) => StartRefundKeeps(cfg, c.rec);
        case EndRefund(t, refund, clash) => EndRefundKeeps(cfg, c.rec, refund, clash);
        case _ => assert after == c.rec;
      }
    }
  }

  lemma {:induction false} RunKeeps(cfg: Settings, c: Cell, events: seq<Event>)
    requires Sound(cfg, c.rec)
    ensures Sound(cfg, Run(cfg, c, events).rec) && Persists(c.rec, Run(cfg, c, events).rec)
  {
    if events != [] {
      var before := Run(cfg, c, events[..|events| - 1]);
      RunKeeps(cfg, c, events[..|events| - 1]);
      StepKeeps(cfg, before, events[|events| - 1]);
      PersistsTransitive(c.rec, before.rec, Run(cfg, c, events).rec);
    }
  }
}
