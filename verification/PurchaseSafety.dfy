/** Stars are bought at most once, and never for an order whose money is returned. */
module PurchaseSafety {
  import opened Domain
  import opened Ledger
  import opened OrderFlow
  import opened OrderInvariants
  import opened OrderPersistence
  import opened OrderSafety
  import opened Protocol
  import opened PurchaseSteps

  predicate IsPurchase(task: Task) {
    task.Permit? || task.Posted? || task.Checking? || task.Holding?
  }

  predicate IsRefund(task: Task) {
    task.RefundPermit? || task.RefundSent?
  }

  /** The answer says something that only a provider that was asked can know. */
  predicate Informed(result: PurchaseResult) {
    IsQueued(result) || IsDefiniteFailure(result)
  }

  /** Answers and deliveries are about purchases that were sent. */
  predicate Worded(tally: Tally) {
    && (forall k :: k in tally.word.delivered ==> k < tally.posts)
    && (forall k :: k in tally.word.denied ==> k < tally.posts)
  }

  /** Purchase work exists only for orders with an attempt, and provider knowledge only about a purchase that was sent. */
  ghost predicate Fenced(c: Cell) {
    && Worded(c.tally)
    && (c.rec.attempt.None? ==> c.tally.posts == 0)
    && (c.rec.attempt.Some? && c.rec.attempt.value.requestId.Some? ==> c.tally.queued < c.tally.posts)
    && (forall t :: t in c.tasks && IsPurchase(c.tasks[t]) ==> c.rec.attempt.Some?)
    && (forall t :: t in c.tasks && (AfterPost(c.tasks[t]) || c.tasks[t].Checking?) ==> c.tasks[t].purchase < c.tally.posts)
    && (forall t :: t in c.tasks && c.tasks[t].Holding? && Informed(c.tasks[t].result) ==>
          c.tasks[t].purchase < c.tally.posts)
    && (forall t :: t in c.tasks && AfterPost(c.tasks[t]) ==> Locked(c.tasks[t]))
  }

  /** Without approved retries there is one permit in the life of the order. */
  ghost predicate SinglePermit(c: Cell) {
    c.tally.approvals == 0 ==>
      && c.tally.posts <= 1
      && (forall t :: t in c.tasks && c.tasks[t].Permit? ==> c.tally.posts == 0)
      && (forall s, t :: s in c.tasks && t in c.tasks && c.tasks[s].Permit? && c.tasks[t].Permit? ==> s == t)
      && (c.rec.attempt.Some? && c.rec.attempt.value.status.Submitting? ==> c.rec.attempt.value.errorCode.None?)
  }

  /** The next delivery would send the purchase again. */
  predicate LiveToken(r: Rec) {
    && r.attempt.Some? && HoldsRetryToken(r.attempt.value)
    && (r.order.status.PurchaseProcessing? || r.order.status.StarsSending?)
  }

  /** Every permit that exists or can still be handed out is paid for by an approval. */
  ghost predicate RetriesPaidFor(c: Cell) {
    Orderly(c.tally) ==>
      && c.tally.posts <= 1 + c.tally.approvals
      && (forall s, t :: s in c.tasks && t in c.tasks && Locked(c.tasks[s]) && Locked(c.tasks[t]) ==> s == t)
      && (forall t :: t in c.tasks && c.tasks[t].Permit? ==> c.tally.posts <= c.tally.approvals)
      && (LiveToken(c.rec) && (forall t :: t in c.tasks ==> !AfterPost(c.tasks[t])) ==> c.tally.posts <= c.tally.approvals)
  }

  /** The order is treated as one whose Stars were not sent. */
  ghost predicate Condemned(c: Cell) {
    || (c.rec.attempt.Some? && c.rec.attempt.value.status.AttemptFailed?)
    || c.rec.order.status.RefundRequired? || c.rec.order.status.Refunded?
    || c.rec.order.status.WaitingForMerchantBalance?
    || c.tally.refunds != []
    || (exists t :: t in c.tasks && c.tasks[t].Holding? && IsDefiniteFailure(c.tasks[t].result))
    || (exists t :: t in c.tasks && IsRefund(c.tasks[t]))
  }

  ghost predicate Honest(c: Cell) {
    c.tally.approvals == 0 && Condemned(c) ==> 0 in c.tally.word.denied
  }

  ghost predicate PurchaseInv(c: Cell) {
    Fenced(c) && SinglePermit(c) && RetriesPaidFor(c) && Honest(c)
  }

  lemma BeginPurchaseInv(cfg: Settings, info: OrderInfo, testPaymentId: string)
    requires ValidRequest(cfg, info)
    ensures PurchaseInv(Begin(cfg, info, testPaymentId))
  {
    CreatedRowsWellFormed(cfg, info, testPaymentId);
  }

  /** A step beside the purchase: the same purchase work, the same counts. */
  ghost predicate SidesWith(c: Cell, after: Cell) {
    && LeavesPurchase(c.rec, after.rec)
    && (forall t :: t in after.tasks && IsPurchase(after.tasks[t]) ==> t in c.tasks && after.tasks[t] == c.tasks[t])
    && (forall t :: t in c.tasks && AfterPost(c.tasks[t]) ==> t in after.tasks && after.tasks[t] == c.tasks[t])
    && after.tally.posts == c.tally.posts && after.tally.approvals == c.tally.approvals
    && after.tally.disorder == c.tally.disorder
    && after.tally.queued == c.tally.queued && after.tally.word == c.tally.word
  }

  lemma BesideKeepsPermits(c: Cell, after: Cell)
    requires PurchaseInv(c) && SidesWith(c, after)
    ensures Fenced(after) && SinglePermit(after) && RetriesPaidFor(after)
  {
  }

  lemma BesideKeepsHonest(c: Cell, after: Cell)
    requires PurchaseInv(c) && SidesWith(c, after)
    requires after.tally.refunds != [] ==> Condemned(c)
    requires (exists t :: t in after.tasks && IsRefund(after.tasks[t])) ==> Condemned(c)
    ensures Honest(after)
  {
    if Condemned(after) { assert Condemned(c); }
  }

  lemma DeliveryKeepsFenced(cfg: Settings, c: Cell, t: nat, hold: bool)
    requires WellFormed(cfg, c.rec) && Fenced(c) && t !in c.tasks
    ensures Fenced(StepDelivery(cfg, c, t, hold))
  {
    hide WellFormed, BeginDelivery;
    DeliveryOutcomes(cfg, c.rec, hold);
  }

  lemma DeliveryKeepsSingle(cfg: Settings, c: Cell, t: nat, hold: bool)
    requires WellFormed(cfg, c.rec) && Fenced(c) && SinglePermit(c) && t !in c.tasks
    ensures SinglePermit(StepDelivery(cfg, c, t, hold))
  {
    hide WellFormed, BeginDelivery;
    DeliveryOutcomes(cfg, c.rec, hold);
  }

  lemma DeliveryKeepsRetries(cfg: Settings, c: Cell, t: nat, hold: bool)
    requires WellFormed(cfg, c.rec) && Fenced(c) && RetriesPaidFor(c) && t !in c.tasks
    ensures RetriesPaidFor(StepDelivery(cfg, c, t, hold))
  {
    hide WellFormed, BeginDelivery;
    DeliveryOutcomes(cfg, c.rec, hold);
  }

  lemma DeliveryCondemnsNothing(cfg: Settings, c: Cell, t: nat, hold: bool)
    requires WellFormed(cfg, c.rec) && t !in c.tasks && Condemned(StepDelivery(cfg, c, t, hold))
    ensures Condemned(c)
  {
    hide WellFormed, BeginDelivery, DeliveryRunning;
    DeliveryOutcomes(cfg, c.rec, hold);
  }

  lemma DeliveryKeepsHonest(cfg: Settings, c: Cell, t: nat, hold: bool)
    requires WellFormed(cfg, c.rec) && Honest(c) && t !in c.tasks
    ensures Honest(StepDelivery(cfg, c, t, hold))
  {
    DeliveryTally(cfg, c, t, hold);
    if Condemned(StepDelivery(cfg, c, t, hold)) { DeliveryCondemnsNothing(cfg, c, t, hold); }
    hide WellFormed, StepDelivery, Condemned, DeliveryRunning;
  }

  lemma DeliveryKeepsPermits(cfg: Settings, c: Cell, t: nat, hold: bool)
    requires WellFormed(cfg, c.rec) && PurchaseInv(c) && t !in c.tasks
    ensures PurchaseInv(StepDelivery(cfg, c, t, hold))
  {
    hide WellFormed, StepDelivery, Fenced, SinglePermit, RetriesPaidFor, Honest;
    DeliveryKeepsFenced(cfg, c, t, hold);
    DeliveryKeepsSingle(cfg, c, t, hold);
    DeliveryKeepsRetries(cfg, c, t, hold);
    DeliveryKeepsHonest(cfg, c, t, hold);
  }

  lemma SendKeepsPermits(cfg: Settings, c: Cell, t: nat)
    requires PurchaseInv(c) && t in c.tasks && c.tasks[t].Permit?
    ensures PurchaseInv(Happen(cfg, c, SendPurchase(t)))
  {
    var after := Happen(cfg, c, SendPurchase(t));
    assert AfterPost(after.tasks[t]);
    if Condemned(after) { assert Condemned(c); }
  }

  lemma AnswerKeepsFenced(cfg: Settings, c: Cell, e: Event)
    requires Fenced(c) && Enabled(cfg, c, e) && (e.AnswerPurchase? || e.AnswerCheck?)
    ensures Fenced(Happen(cfg, c, e))
  {
    assert AfterPost(c.tasks[e.task]) || c.tasks[e.task].Checking?;
    assert c.tasks[e.task].purchase < c.tally.posts;
  }

  lemma AnswerKeepsSingle(cfg: Settings, c: Cell, e: Event)
    requires SinglePermit(c) && Enabled(cfg, c, e) && (e.AnswerPurchase? || e.AnswerCheck?)
    ensures SinglePermit(Happen(cfg, c, e))
  {
  }

  lemma AnswerKeepsRetries(cfg: Settings, c: Cell, e: Event)
    requires RetriesPaidFor(c) && Enabled(cfg, c, e) && (e.AnswerPurchase? || e.AnswerCheck?)
    ensures RetriesPaidFor(Happen(cfg, c, e))
  {
    var after := Happen(cfg, c, e);
    assert AfterPost(c.tasks[e.task]) ==> AfterPost(after.tasks[e.task]);
    assert forall t :: t in c.tasks && t != e.task ==> t in after.tasks && after.tasks[t] == c.tasks[t];
  }

  lemma AnswerKeepsPermits(cfg: Settings, c: Cell, e: Event)
    requires PurchaseInv(c) && Enabled(cfg, c, e) && (e.AnswerPurchase? || e.AnswerCheck?)
    ensures var after := Happen(cfg, c, e); Fenced(after) && SinglePermit(after) && RetriesPaidFor(after)
  {
    hide Happen, Fenced, SinglePermit, RetriesPaidFor, Honest;
    AnswerKeepsFenced(cfg, c, e);
    AnswerKeepsSingle(cfg, c, e);
    AnswerKeepsRetries(cfg, c, e);
  }

  lemma AnswerKeepsHonest(cfg: Settings, c: Cell, e: Event)
    requires PurchaseInv(c) && Enabled(cfg, c, e) && (e.AnswerPurchase? || e.AnswerCheck?)
    ensures Honest(Happen(cfg, c, e))
  {
    hide RetriesPaidFor;
    var after := Happen(cfg, c, e);
    assert AfterPost(c.tasks[e.task]) || c.tasks[e.task].Checking?;
    assert c.tally.approvals == 0 ==> c.tasks[e.task].purchase == 0;
    if Condemned(after) && !IsDefiniteFailure(e.result) { assert Condemned(c); }
  }

  lemma AnswerStepKeeps(cfg: Settings, c: Cell, e: Event)
    requires PurchaseInv(c) && Enabled(cfg, c, e) && (e.AnswerPurchase? || e.AnswerCheck?)
    ensures PurchaseInv(Happen(cfg, c, e))
  {
    AnswerKeepsPermits(cfg, c, e);
    AnswerKeepsHonest(cfg, c, e);
    hide Happen, Fenced, SinglePermit, RetriesPaidFor, Honest;
  }

  lemma ApplyKeepsFenced(cfg: Settings, c: Cell, t: nat, clash: bool, stale: bool)
    requires WellFormed(cfg, c.rec) && Fenced(c) && t in c.tasks && c.tasks[t].Holding?
    ensures Fenced(StepApply(c, t, clash, stale))
  {
    hide WellFormed, ApplyResult, IsDefiniteFailure;
    ApplyOutcomes(cfg, c.rec, c.tasks[t].result, clash, stale);
  }

  lemma ApplyKeepsSingle(cfg: Settings, c: Cell, t: nat, clash: bool, stale: bool)
    requires WellFormed(cfg, c.rec) && SinglePermit(c) && t in c.tasks && c.tasks[t].Holding?
    ensures SinglePermit(StepApply(c, t, clash, stale))
  {
    hide WellFormed, ApplyResult, IsDefiniteFailure;
    ApplyOutcomes(cfg, c.rec, c.tasks[t].result, clash, stale);
  }

  lemma ApplyKeepsRetries(cfg: Settings, c: Cell, t: nat, clash: bool, stale: bool)
    requires WellFormed(cfg, c.rec) && RetriesPaidFor(c) && t in c.tasks && c.tasks[t].Holding?
    ensures RetriesPaidFor(StepApply(c, t, clash, stale))
  {
    hide WellFormed, ApplyResult, IsDefiniteFailure;
    var result := c.tasks[t].result;
    ApplyOutcomes(cfg, c.rec, result, clash, stale);
    if LiveToken(c.rec) && !(IsQueued(result) && clash) { LiveAnswerCommits(cfg, c.rec, result, clash, stale); }
  }

  lemma ApplyKeepsHonest(cfg: Settings, c: Cell, t: nat, clash: bool, stale: bool)
    requires WellFormed(cfg, c.rec) && Honest(c) && t in c.tasks && c.tasks[t].Holding?
    ensures Honest(StepApply(c, t, clash, stale))
  {
    hide WellFormed, ApplyResult, IsQueued;
    ApplyOutcomes(cfg, c.rec, c.tasks[t].result, clash, stale);
    if Condemned(StepApply(c, t, clash, stale)) { assert Condemned(c); }
  }

  lemma ApplyKeepsPermits(cfg: Settings, c: Cell, t: nat, clash: bool, stale: bool)
    requires WellFormed(cfg, c.rec) && PurchaseInv(c) && t in c.tasks && c.tasks[t].Holding?
    ensures PurchaseInv(StepApply(c, t, clash, stale))
  {
    hide WellFormed, StepApply, Fenced, SinglePermit, RetriesPaidFor, Honest;
    ApplyKeepsFenced(cfg, c, t, clash, stale);
    ApplyKeepsSingle(cfg, c, t, clash, stale);
    ApplyKeepsRetries(cfg, c, t, clash, stale);
    ApplyKeepsHonest(cfg, c, t, clash, stale);
  }

  /** A reconciliation leaves the purchase alone and may start to ask about its request. */
  ghost predicate MayAsk(c: Cell, t: nat, after: Cell) {
    && LeavesPurchase(c.rec, after.rec) && after.tally == c.tally
    && (|| after.tasks == c.tasks
        || (c.rec.attempt.Some? && c.rec.attempt.value.requestId.Some?
            && exists requestId :: after.tasks == c.tasks[t := Checking(requestId, false, c.tally.queued)]))
  }

  lemma ReconciliationAsks(cfg: Settings, c: Cell, t: nat)
    requires Sound(cfg, c.rec) && t !in c.tasks
    ensures MayAsk(c, t, Happen(cfg, c, StartReconciliation(t)))
  {
    hide WellFormed, BeginReconciliation, Chronicle, Persists;
    ReconciliationOutcomes(cfg, c.rec);
    ReconcileKeeps(cfg, c.rec);
  }

  lemma AskingKeepsPermits(c: Cell, t: nat, after: Cell)
    requires Fenced(c) && SinglePermit(c) && t !in c.tasks && MayAsk(c, t, after)
    ensures Fenced(after) && SinglePermit(after)
  {
    hide IsDefiniteFailure, IsQueued;
  }

  lemma AskingKeepsRetries(c: Cell, t: nat, after: Cell)
    requires RetriesPaidFor(c) && t !in c.tasks && MayAsk(c, t, after)
    ensures RetriesPaidFor(after)
  {
    assert forall u :: u in c.tasks ==> u in after.tasks && after.tasks[u] == c.tasks[u];
    if LiveToken(after.rec) { assert LiveToken(c.rec); }
  }

  lemma AskingKeepsHonest(c: Cell, t: nat, after: Cell)
    requires Honest(c) && t !in c.tasks && MayAsk(c, t, after)
    ensures Honest(after)
  {
    hide IsDefiniteFailure;
    if Condemned(after) { assert Condemned(c); }
  }

  lemma ReconciliationKeepsPermits(cfg: Settings, c: Cell, t: nat)
    requires Sound(cfg, c.rec) && PurchaseInv(c) && t !in c.tasks
    ensures PurchaseInv(Happen(cfg, c, StartReconciliation(t)))
  {
    ReconciliationAsks(cfg, c, t);
    hide Sound, Happen, MayAsk, Fenced, SinglePermit, RetriesPaidFor, Honest;
    var after := Happen(cfg, c, StartReconciliation(t));
    AskingKeepsPermits(c, t, after);
    AskingKeepsRetries(c, t, after);
    AskingKeepsHonest(c, t, after);
  }

  lemma ApproveKeepsPermits(cfg: Settings, c: Cell, t: nat)
    requires WellFormed(cfg, c.rec) && PurchaseInv(c) && t in c.tasks && c.tasks[t].RetrySeen?
    ensures PurchaseInv(StepApprove(c, t))
  {
    hide WellFormed, ApproveBalanceRetry;
    ApprovalOutcomes(cfg, c.rec);
    if ApproveBalanceRetry(c.rec).Raise? {
      BesideKeepsPermits(c, StepApprove(c, t));
      BesideKeepsHonest(c, StepApprove(c, t));
    }
  }

  lemma CrashKeepsPermits(cfg: Settings, c: Cell, t: nat)
    requires PurchaseInv(c) && t in c.tasks
    ensures PurchaseInv(Happen(cfg, c, Crash(t)))
  {
    var after := Happen(cfg, c, Crash(t));
    assert forall u :: u in c.tasks && u != t ==> u in after.tasks && after.tasks[u] == c.tasks[u];
    if Condemned(after) { assert Condemned(c); }
  }

  lemma RefundStepSides(cfg: Settings, c: Cell, e: Event)
    requires Sound(cfg, c.rec) && Enabled(cfg, c, e) && (e.StartRefund? || e.SendRefund? || e.EndRefund?)
    ensures SidesWith(c, Happen(cfg, c, e))
  {
    hide WellFormed, Chronicle, Persists, FinishRefund, BeginRefund, RefundMatches;
    StartRefundKeeps(cfg, c.rec);
    if e.EndRefund? { EndRefundKeeps(cfg, c.rec, e.refund, e.clash); }
  }

  /** Only an order that is due a refund, or is being refunded already, gets another refund call. */
  lemma RefundStepCalls(cfg: Settings, c: Cell, e: Event)
    requires Enabled(cfg, c, e) && (e.StartRefund? || e.SendRefund? || e.EndRefund?)
    ensures
      var after := Happen(cfg, c, e);
      (after.tally.refunds != [] || exists t :: t in after.tasks && IsRefund(after.tasks[t])) ==>
        || c.tally.refunds != [] || (exists t :: t in c.tasks && IsRefund(c.tasks[t]))
        || (e.StartRefund? && BeginRefund(c.rec).Ok?)
  {
    hide FinishRefund, BeginRefund, RefundMatches;
  }

  lemma RefundIsDue(r: Rec)
    requires BeginRefund(r).Ok?
    ensures r.order.status.RefundRequired? && (r.attempt.Some? ==> !BlocksRefund(r.attempt.value.status))
  {
  }

  lemma RefundStepKeeps(cfg: Settings, c: Cell, e: Event)
    requires Sound(cfg, c.rec) && PurchaseInv(c) && Enabled(cfg, c, e)
    requires e.StartRefund? || e.SendRefund? || e.EndRefund?
    ensures PurchaseInv(Happen(cfg, c, e))
  {
    RefundStepSides(cfg, c, e);
    RefundStepCalls(cfg, c, e);
    if BeginRefund(c.rec).Ok? { RefundIsDue(c.rec); }
    hide Sound, Happen, BeginRefund;
    hide Fenced, SinglePermit, RetriesPaidFor, Honest, SidesWith;
    var after := Happen(cfg, c, e);
    BesideKeepsPermits(c, after);
    BesideKeepsHonest(c, after);
  }

  lemma TransactionSides(cfg: Settings, c: Cell, op: Op)
    requires Sound(cfg, c.rec)
    ensures SidesWith(c, Happen(cfg, c, Transact(op)))
  {
    hide Sound, Persists, Execute;
    ExecuteKeeps(cfg, c.rec, op);
  }

  lemma TransactionKeeps(cfg: Settings, c: Cell, op: Op)
    requires Sound(cfg, c.rec) && PurchaseInv(c)
    ensures PurchaseInv(Happen(cfg, c, Transact(op)))
  {
    TransactionSides(cfg, c, op);
    hide Sound, Execute, PurchaseInv, SidesWith;
    hide Fenced, SinglePermit, RetriesPaidFor, Honest;
    var after := Happen(cfg, c, Transact(op));
    BesideKeepsPermits(c, after);
    if exists t :: t in after.tasks && IsRefund(after.tasks[t]) { assert Condemned(c); }
    BesideKeepsHonest(c, after);
    KeptPurchaseInv(after);
  }

  /** Payment work leaves the purchase alone. */
  predicate IsPaymentStep(e: Event) {
    e.StartCharge? || e.SendCharge? || e.StartTest? || e.EndTest? || e.ReadForRetry?
  }

  lemma PaymentStepSides(cfg: Settings, c: Cell, e: Event)
    requires Sound(cfg, c.rec) && Enabled(cfg, c, e) && IsPaymentStep(e)
    ensures SidesWith(c, Happen(cfg, c, e))
  {
    hide Sound, Persists, InitiateYoo, BeginTestConfirmation, EndTestConfirmation;
    match e {
      case StartCharge(t, now, expiresAt) => ChargeKeeps(cfg, c.rec, now, expiresAt);
      case StartTest(t) =>
        if cfg.testMode { TestKeeps(cfg, c.rec, true); } else { TestModeOnly(cfg, c.rec); }
      case EndTest(t, succeeded) => TestKeeps(cfg, c.rec, succeeded);
      case _ =>
    }
  }

  lemma PaymentStepRefunds(cfg: Settings, c: Cell, e: Event)
    requires Enabled(cfg, c, e) && IsPaymentStep(e)
    ensures
      var after := Happen(cfg, c, e);
      && after.tally.refunds == c.tally.refunds
      && forall t :: t in after.tasks && IsRefund(after.tasks[t]) ==> t in c.tasks && after.tasks[t] == c.tasks[t]
  {
    hide InitiateYoo, BeginTestConfirmation, EndTestConfirmation;
  }

  lemma PaymentStepKeeps(cfg: Settings, c: Cell, e: Event)
    requires Sound(cfg, c.rec) && PurchaseInv(c) && Enabled(cfg, c, e) && IsPaymentStep(e)
    ensures PurchaseInv(Happen(cfg, c, e))
  {
    PaymentStepSides(cfg, c, e);
    PaymentStepRefunds(cfg, c, e);
    hide Sound, Happen, PurchaseInv, SidesWith;
    hide Fenced, SinglePermit, RetriesPaidFor, Honest;
    var after := Happen(cfg, c, e);
    BesideKeepsPermits(c, after);
    if exists t :: t in after.tasks && IsRefund(after.tasks[t]) { assert Condemned(c); }
    BesideKeepsHonest(c, after);
    KeptPurchaseInv(after);
  }

  lemma TestModeOnly(cfg: Settings, r: Rec)
    requires !cfg.testMode
    ensures BeginTestConfirmation(cfg, r).Raise?
  {
  }

  lemma KeptPurchaseInv(c: Cell)
    requires Fenced(c) && SinglePermit(c) && RetriesPaidFor(c) && Honest(c)
    ensures PurchaseInv(c)
  {
  }

  /** The transactions of the purchase that read or write the attempt. */
  lemma AttemptStepKeeps(cfg: Settings, c: Cell, e: Event)
    requires Sound(cfg, c.rec) && PurchaseInv(c) && Enabled(cfg, c, e)
    requires e.StartDelivery? || e.Apply? || e.Approve?
    ensures PurchaseInv(Happen(cfg, c, e))
  {
    hide WellFormed, Chronicle, PurchaseInv, StepDelivery, StepApply, StepApprove;
    match e
    case StartDelivery(t, hold) => DeliveryKeepsPermits(cfg, c, t, hold);
    case Apply(t, clash, stale) => ApplyKeepsPermits(cfg, c, t, clash, stale);
    case Approve(t) => ApproveKeepsPermits(cfg, c, t);
  }

  lemma StepKeepsPurchase(cfg: Settings, c: Cell, e: Event)
    requires Sound(cfg, c.rec) && PurchaseInv(c)
    ensures PurchaseInv(Step(cfg, c, e))
  {
    if Enabled(cfg, c, e) {
      assert WellFormed(cfg, c.rec);
      hide Sound, WellFormed, PurchaseInv, Happen;
      match e {
        case Transact(op) => TransactionKeeps(cfg, c, op);
        case SendPurchase(t) => SendKeepsPermits(cfg, c, t);
        case AnswerPurchase(_, _) => AnswerStepKeeps(cfg, c, e);
        case AnswerCheck(_, _) => AnswerStepKeeps(cfg, c, e);
        case StartReconciliation(t) => ReconciliationKeepsPermits(cfg, c, t);
        case StartRefund(t) => RefundStepKeeps(cfg, c, e);
        case SendRefund(t) => RefundStepKeeps(cfg, c, e);
        case EndRefund(_, _, _) => RefundStepKeeps(cfg, c, e);
        case ProviderDelivers(k) => DeliveredKeeps(cfg, c, k);
        case Crash(t) => CrashKeepsPermits(cfg, c, t);
        case _ => if IsPaymentStep(e) { PaymentStepKeeps(cfg, c, e); } else { AttemptStepKeeps(cfg, c, e); }
      }
    }
  }

  lemma DeliveredKeeps(cfg: Settings, c: Cell, k: nat)
    requires PurchaseInv(c) && k < c.tally.posts
    ensures PurchaseInv(Happen(cfg, c, ProviderDelivers(k)))
  {
    var after := Happen(cfg, c, ProviderDelivers(k));
    if Condemned(after) { assert Condemned(c); }
  }

  lemma {:induction false} RunKeepsPurchase(cfg: Settings, info: OrderInfo, testPaymentId: string, events: seq<Event>)
    requires ValidRequest(cfg, info)
    ensures PurchaseInv(Run(cfg, Begin(cfg, info, testPaymentId), events))
  {
    var start := Begin(cfg, info, testPaymentId);
    if events == [] {
      BeginPurchaseInv(cfg, info, testPaymentId);
    } else {
      var earlier := events[..|events| - 1];
      BeginIsSound(cfg, info, testPaymentId);
      RunKeeps(cfg, start, earlier);
      RunKeepsPurchase(cfg, info, testPaymentId, earlier);
      StepKeepsPurchase(cfg, Run(cfg, start, earlier), events[|events| - 1]);
    }
  }

  // ---------------------------------------------------------------- main results

  /** Some request and some sequence of events lead to this state. */
  ghost predicate Reachable(cfg: Settings, c: Cell) {
    exists info, testPaymentId, events ::
      ValidRequest(cfg, info) && c == Run(cfg, Begin(cfg, info, testPaymentId), events)
  }

  lemma ReachableKeepsPurchase(cfg: Settings, c: Cell)
    requires Reachable(cfg, c)
    ensures PurchaseInv(c)
  {
    hide Run, Begin, PurchaseInv;
    var info, testPaymentId, events :|
      ValidRequest(cfg, info) && c == Run(cfg, Begin(cfg, info, testPaymentId), events);
    RunKeepsPurchase(cfg, info, testPaymentId, events);
  }

  /**
   For any number of workers in any processes, any interleaving and any crashes: an order without an
   approved balance retry is bought at most once, a worker that may still send the purchase is the only
   one and nothing was sent before, and either one implies an attempt row.
   */
  lemma AtMostOnePurchase(cfg: Settings, c: Cell)
    requires Reachable(cfg, c) && c.tally.approvals == 0
    ensures c.tally.posts <= 1
    ensures forall t :: t in c.tasks && c.tasks[t].Permit? ==>
              c.tally.posts == 0 && forall s :: s in c.tasks && c.tasks[s].Permit? ==> s == t
    ensures c.tally.posts > 0 || (exists t :: t in c.tasks && c.tasks[t].Permit?) ==> c.rec.attempt.Some?
  {
    ReachableKeepsPurchase(cfg, c);
    hide Reachable;
  }

  /**
   With balance retries: as long as one process uses the per-order lock, no worker crashes between sending
   a purchase and committing its answer, and request identifiers are fresh, each purchase after the first is
   paid for by an approval, even by one that was decided on an outdated status. PurchaseLimits shows that none
   of the three can be dropped.
   */
  lemma RetriesBoundPurchases(cfg: Settings, c: Cell)
    requires Reachable(cfg, c) && Orderly(c.tally)
    ensures c.tally.posts <= 1 + c.tally.approvals
  {
    ReachableKeepsPurchase(cfg, c);
    hide Reachable;
  }

  /**
   If the provider never delivers a purchase that it reports as definitely failed, an order without an approved retry
   whose refund was sent, or that is due a refund or refunded, never received Stars.
   */
  lemma DeliveryExcludesRefund(cfg: Settings, c: Cell)
    requires Reachable(cfg, c) && c.tally.approvals == 0 && !Contradicted(c.tally)
    ensures c.tally.refunds != [] || c.rec.order.status.RefundRequired? || c.rec.order.status.Refunded? ==>
              c.tally.word.delivered == {}
  {
    ReachableKeepsPurchase(cfg, c);
    hide Reachable;
    if Condemned(c) {
      assert forall k :: k in c.tally.word.delivered ==> k == 0;
      assert 0 in c.tally.word.delivered ==> 0 in c.tally.word.delivered * c.tally.word.denied;
    }
  }
}
