/** Delivery and refund exclude each other for retried orders as well. */
module RetrySafety {
  import opened Domain
  import opened Ledger
  import opened OrderFlow
  import opened OrderInvariants
  import opened OrderPersistence
  import opened OrderSafety
  import opened Protocol
  import opened PurchaseSafety
  import opened PurchaseSteps

  /** Deliveries never overlapped, and every retry was approved while the order waited for the merchant balance. */
  predicate Supervised(tally: Tally) {
    !tally.disorder.overlapped && !tally.disorder.outdated
  }

  /** A purchase may still be sent, or was sent and is not settled. */
  predicate Working(task: Task) {
    task.Permit? || AfterPost(task)
  }

  ghost predicate SomeoneWorks(c: Cell) {
    exists t :: t in c.tasks && Working(c.tasks[t])
  }

  /** Money is on its way back to the buyer. */
  ghost predicate RefundUnderWay(c: Cell) {
    c.tally.refunds != [] || exists t :: t in c.tasks && IsRefund(c.tasks[t])
  }

  predicate HasRequest(r: Rec) {
    r.attempt.Some? && r.attempt.value.requestId.Some?
  }

  /** What the rows say about an attempt that is being submitted. */
  predicate SubmittingFits(r: Rec) {
    r.attempt.Some? && r.attempt.value.status.Submitting? ==>
      && !r.order.status.RefundRequired? && !r.order.status.Refunded? && !r.order.status.WaitingForMerchantBalance?
  }

  /** Deliveries come one after the other, and only an order with a request identifier is asked about. */
  ghost predicate OneAtATime(c: Cell) {
    && (forall s, t :: s in c.tasks && t in c.tasks && Locked(c.tasks[s]) && Locked(c.tasks[t]) ==> s == t)
    && (forall t :: t in c.tasks && (c.tasks[t].Checking? || (c.tasks[t].Holding? && !c.tasks[t].locked)) ==> HasRequest(c.rec))
    && (forall t :: t in c.tasks && c.tasks[t].Holding? && !c.tasks[t].posted && Informed(c.tasks[t].result) ==> HasRequest(c.rec))
    && (forall t :: t in c.tasks && c.tasks[t].Permit? ==> !HasRequest(c.rec))
    && (forall t :: t in c.tasks && Working(c.tasks[t]) && !HasRequest(c.rec) ==>
          c.rec.attempt.Some? && c.rec.attempt.value.status.Submitting?)
  }

  /** An order that can still be bought, or waits for another try, is not being refunded. */
  ghost predicate BuyingExcludesRefund(c: Cell) {
    !HasRequest(c.rec) && (SomeoneWorks(c) || LiveToken(c.rec) || c.rec.order.status.WaitingForMerchantBalance?) ==>
      !RefundUnderWay(c)
  }

  /** Nothing condemns an order that was never bought. */
  ghost predicate Bought(c: Cell) {
    Condemned(c) ==> c.tally.posts >= 1
  }

  ghost predicate Guarded(c: Cell) {
    SubmittingFits(c.rec) && OneAtATime(c) && BuyingExcludesRefund(c) && Bought(c)
  }

  // ---------------------------------------------------------------- events beside the purchase

  /** The event starts no refund, or one that the order is due. */
  ghost predicate RefundsOnlyDue(c: Cell, after: Cell) {
    RefundUnderWay(after) ==>
      || RefundUnderWay(c)
      || (c.rec.order.status.RefundRequired? && c.rec.attempt.Some? && c.rec.attempt.value.status.AttemptFailed?)
  }

  lemma BesideKeepsOrder(c: Cell, after: Cell)
    requires SubmittingFits(c.rec) && OneAtATime(c) && SidesWith(c, after)
    ensures SubmittingFits(after.rec) && OneAtATime(after)
  {
  }

  lemma BesideKeepsApart(c: Cell, after: Cell)
    requires OneAtATime(c) && BuyingExcludesRefund(c) && SidesWith(c, after) && RefundsOnlyDue(c, after)
    ensures BuyingExcludesRefund(after)
  {
    if SomeoneWorks(after) { assert SomeoneWorks(c); }
    if LiveToken(after.rec) { assert LiveToken(c.rec); }
  }

  lemma BesideKeepsBought(c: Cell, after: Cell)
    requires Bought(c) && SidesWith(c, after) && RefundsOnlyDue(c, after)
    ensures Bought(after)
  {
    if Condemned(after) { assert Condemned(c); }
  }

  lemma BesideKeepsGuarded(c: Cell, after: Cell)
    requires Guarded(c) && SidesWith(c, after) && RefundsOnlyDue(c, after)
    ensures Guarded(after)
  {
    hide SubmittingFits, OneAtATime, BuyingExcludesRefund, Bought, SidesWith, RefundsOnlyDue;
    BesideKeepsOrder(c, after);
    BesideKeepsApart(c, after);
    BesideKeepsBought(c, after);
  }

  lemma TransactionRefunds(cfg: Settings, c: Cell, op: Op)
    ensures RefundsOnlyDue(c, Happen(cfg, c, Transact(op)))
  {
    hide Execute;
  }

  lemma PaymentRefunds(cfg: Settings, c: Cell, e: Event)
    requires Enabled(cfg, c, e) && IsPaymentStep(e)
    ensures RefundsOnlyDue(c, Happen(cfg, c, e))
  {
    PaymentStepRefunds(cfg, c, e);
    hide Happen;
  }

  lemma RefundRefunds(cfg: Settings, c: Cell, e: Event)
    requires WellFormed(cfg, c.rec) && Enabled(cfg, c, e) && (e.StartRefund? || e.SendRefund? || e.EndRefund?)
    ensures RefundsOnlyDue(c, Happen(cfg, c, e))
  {
    RefundStepCalls(cfg, c, e);
    if BeginRefund(c.rec).Ok? { RefundIsDue(c.rec); }
    hide Happen, BeginRefund;
  }

  // ---------------------------------------------------------------- events of the purchase

  /** All that a delivery's first transaction can do to the tasks. */
  ghost predicate DeliveryTasks(c: Cell, t: nat, after: Cell) {
    || after.tasks == c.tasks
    || (after.tasks == c.tasks[t := Permit] && !HasRequest(after.rec)
        && after.rec.attempt.Some? && after.rec.attempt.value.status.Submitting?)
    || (after.rec == c.rec && HasRequest(c.rec)
        && exists requestId :: after.tasks == c.tasks[t := Checking(requestId, true, c.tally.queued)])
    || (after.rec == c.rec
        && exists code :: !IsBalanceCode(code)
             && after.tasks == c.tasks[t := Holding(UncertainResult(code), false, true, c.tally.posts)])
  }

  predicate DeliveryRows(r: Rec, after: Rec) {
    && (HasRequest(after) <==> HasRequest(r))
    && (SubmittingFits(r) ==> SubmittingFits(after))
    && (r.attempt.Some? ==> after.attempt == r.attempt)
  }

  lemma DeliveryShape(cfg: Settings, c: Cell, t: nat, hold: bool)
    requires WellFormed(cfg, c.rec)
    ensures DeliveryTasks(c, t, StepDelivery(cfg, c, t, hold))
    ensures DeliveryRows(c.rec, StepDelivery(cfg, c, t, hold).rec)
  {
    hide WellFormed, BeginDelivery, DeliveryRunning;
    DeliveryOutcomes(cfg, c.rec, hold);
  }

  lemma ScheduledKeepsOrder(c: Cell, t: nat, after: Cell)
    requires OneAtATime(c) && !DeliveryRunning(c) && t !in c.tasks
    requires DeliveryTasks(c, t, after) && (HasRequest(after.rec) <==> HasRequest(c.rec))
    requires c.rec.attempt.Some? ==> after.rec.attempt == c.rec.attempt
    requires forall u :: u in c.tasks && IsPurchase(c.tasks[u]) ==> c.rec.attempt.Some?
    ensures OneAtATime(after)
  {
    hide HasRequest;
    assert forall u :: u in after.tasks && u != t ==> u in c.tasks && after.tasks[u] == c.tasks[u];
    assert forall code :: !IsBalanceCode(code) ==> !IsDefiniteFailure(UncertainResult(code));
  }

  lemma DeliveryKeepsOrder(cfg: Settings, c: Cell, t: nat, hold: bool)
    requires WellFormed(cfg, c.rec) && Fenced(c) && SubmittingFits(c.rec) && OneAtATime(c) && t !in c.tasks
    requires !StepDelivery(cfg, c, t, hold).tally.disorder.overlapped
    ensures SubmittingFits(StepDelivery(cfg, c, t, hold).rec) && OneAtATime(StepDelivery(cfg, c, t, hold))
  {
    DeliveryShape(cfg, c, t, hold);
    DeliveryTally(cfg, c, t, hold);
    hide WellFormed, StepDelivery, SubmittingFits, OneAtATime, DeliveryTasks, DeliveryRunning, HasRequest;
    ScheduledKeepsOrder(c, t, StepDelivery(cfg, c, t, hold));
  }

  lemma DeliveryKeepsApart(cfg: Settings, c: Cell, t: nat, hold: bool)
    requires WellFormed(cfg, c.rec) && Fenced(c) && BuyingExcludesRefund(c) && Bought(c) && t !in c.tasks
    ensures BuyingExcludesRefund(StepDelivery(cfg, c, t, hold))
  {
    hide WellFormed, BeginDelivery, DeliveryRunning;
    DeliveryOutcomes(cfg, c.rec, hold);
    var after := StepDelivery(cfg, c, t, hold);
    if RefundUnderWay(after) {
      assert RefundUnderWay(c);
      assert Condemned(c);
      if SomeoneWorks(after) && !SomeoneWorks(c) { assert after.tasks[t].Permit?; }
    }
  }

  lemma DeliveryKeepsBought(cfg: Settings, c: Cell, t: nat, hold: bool)
    requires WellFormed(cfg, c.rec) && Bought(c) && t !in c.tasks
    ensures Bought(StepDelivery(cfg, c, t, hold))
  {
    if Condemned(StepDelivery(cfg, c, t, hold)) { DeliveryCondemnsNothing(cfg, c, t, hold); }
    DeliveryTally(cfg, c, t, hold);
    hide WellFormed, StepDelivery, Condemned, DeliveryRunning;
  }

  lemma DeliveryKeepsGuarded(cfg: Settings, c: Cell, t: nat, hold: bool)
    requires WellFormed(cfg, c.rec) && Fenced(c) && Guarded(c) && t !in c.tasks
    requires Supervised(StepDelivery(cfg, c, t, hold).tally)
    ensures Guarded(StepDelivery(cfg, c, t, hold))
  {
    hide WellFormed, StepDelivery, Fenced, SubmittingFits, OneAtATime, BuyingExcludesRefund, Bought;
    DeliveryKeepsOrder(cfg, c, t, hold);
    DeliveryKeepsApart(cfg, c, t, hold);
    DeliveryKeepsBought(cfg, c, t, hold);
  }

  /** Where a permit is left, nothing condemns the order any more. */
  lemma PermitIsNotCondemned(c: Cell, t: nat)
    requires Fenced(c) && Guarded(c) && t in c.tasks && c.tasks[t].Permit?
    ensures !RefundUnderWay(c)
    ensures !(c.rec.attempt.Some? && c.rec.attempt.value.status.AttemptFailed?)
    ensures !c.rec.order.status.RefundRequired? && !c.rec.order.status.Refunded?
            && !c.rec.order.status.WaitingForMerchantBalance?
    ensures forall u :: u in c.tasks && c.tasks[u].Holding? ==> !IsDefiniteFailure(c.tasks[u].result)
  {
    hide IsDefiniteFailure, IsQueued, Bought;
    assert Working(c.tasks[t]) && SomeoneWorks(c);
    assert forall u :: u in c.tasks && Locked(c.tasks[u]) ==> u == t;
  }

  lemma SendKeepsOrder(cfg: Settings, c: Cell, t: nat)
    requires OneAtATime(c) && t in c.tasks && c.tasks[t].Permit?
    ensures OneAtATime(Happen(cfg, c, SendPurchase(t)))
  {
    hide IsDefiniteFailure, IsQueued;
  }

  lemma SendKeepsGuarded(cfg: Settings, c: Cell, t: nat)
    requires Fenced(c) && Guarded(c) && t in c.tasks && c.tasks[t].Permit?
    ensures Guarded(Happen(cfg, c, SendPurchase(t)))
  {
    PermitIsNotCondemned(c, t);
    SendKeepsOrder(cfg, c, t);
    hide IsDefiniteFailure, IsQueued, OneAtATime, SubmittingFits;
    var after := Happen(cfg, c, SendPurchase(t));
    assert forall u :: u in after.tasks && u != t ==> u in c.tasks && after.tasks[u] == c.tasks[u];
    assert !Condemned(after);
    assert !RefundUnderWay(after);
  }

  lemma AnswerKeepsOrder(cfg: Settings, c: Cell, e: Event)
    requires OneAtATime(c) && Enabled(cfg, c, e) && (e.AnswerPurchase? || e.AnswerCheck?)
    ensures OneAtATime(Happen(cfg, c, e))
  {
    hide IsDefiniteFailure, IsQueued;
    var after := Happen(cfg, c, e);
    assert Locked(after.tasks[e.task]) ==> Locked(c.tasks[e.task]);
    assert Working(after.tasks[e.task]) ==> Working(c.tasks[e.task]);
    assert forall t :: t in after.tasks && t != e.task ==> t in c.tasks && after.tasks[t] == c.tasks[t];
  }

  lemma AnswerKeepsApart(cfg: Settings, c: Cell, e: Event)
    requires BuyingExcludesRefund(c) && Enabled(cfg, c, e) && (e.AnswerPurchase? || e.AnswerCheck?)
    ensures BuyingExcludesRefund(Happen(cfg, c, e))
  {
    hide IsDefiniteFailure, IsQueued, LiveToken;
    var after := Happen(cfg, c, e);
    assert forall t :: t in after.tasks && t != e.task ==> t in c.tasks && after.tasks[t] == c.tasks[t];
    if RefundUnderWay(after) { assert RefundUnderWay(c); }
    assert Working(after.tasks[e.task]) ==> Working(c.tasks[e.task]);
    if SomeoneWorks(after) { assert SomeoneWorks(c); }
  }

  lemma AnswerKeepsBought(cfg: Settings, c: Cell, e: Event)
    requires Fenced(c) && Bought(c) && Enabled(cfg, c, e) && (e.AnswerPurchase? || e.AnswerCheck?)
    ensures Bought(Happen(cfg, c, e))
  {
    hide IsQueued;
    var after := Happen(cfg, c, e);
    assert AfterPost(c.tasks[e.task]) || c.tasks[e.task].Checking?;
    assert c.tally.posts >= 1;
    if Condemned(after) && !IsDefiniteFailure(e.result) { assert Condemned(c); }
  }

  lemma AnswerKeepsGuarded(cfg: Settings, c: Cell, e: Event)
    requires Fenced(c) && Guarded(c) && Enabled(cfg, c, e) && (e.AnswerPurchase? || e.AnswerCheck?)
    ensures Guarded(Happen(cfg, c, e))
  {
    AnswerKeepsOrder(cfg, c, e);
    AnswerKeepsApart(cfg, c, e);
    AnswerKeepsBought(cfg, c, e);
    assert Happen(cfg, c, e).rec == c.rec;
    hide Happen, Fenced, OneAtATime, BuyingExcludesRefund, Bought;
  }

  lemma ApplyKeepsOrder(cfg: Settings, c: Cell, t: nat, clash: bool, stale: bool)
    requires WellFormed(cfg, c.rec) && SubmittingFits(c.rec) && OneAtATime(c) && t in c.tasks && c.tasks[t].Holding?
    ensures SubmittingFits(StepApply(c, t, clash, stale).rec) && OneAtATime(StepApply(c, t, clash, stale))
  {
    hide WellFormed, ApplyResult, IsDefiniteFailure;
    ApplyOutcomes(cfg, c.rec, c.tasks[t].result, clash, stale);
    var after := StepApply(c, t, clash, stale);
    assert forall u :: u in after.tasks ==> u in c.tasks && u != t && after.tasks[u] == c.tasks[u];
  }

  lemma ApplyKeepsApart(cfg: Settings, c: Cell, t: nat, clash: bool, stale: bool)
    requires WellFormed(cfg, c.rec) && OneAtATime(c) && BuyingExcludesRefund(c) && t in c.tasks && c.tasks[t].Holding?
    ensures BuyingExcludesRefund(StepApply(c, t, clash, stale))
  {
    hide WellFormed, ApplyResult, IsDefiniteFailure;
    ApplyOutcomes(cfg, c.rec, c.tasks[t].result, clash, stale);
    var after := StepApply(c, t, clash, stale);
    assert forall u :: u in after.tasks ==> u in c.tasks && after.tasks[u] == c.tasks[u];
    if RefundUnderWay(after) { assert RefundUnderWay(c); }
    if SomeoneWorks(after) { assert SomeoneWorks(c); }
    if c.tasks[t].posted { assert SomeoneWorks(c); }
  }

  lemma ApplyKeepsBought(cfg: Settings, c: Cell, t: nat, clash: bool, stale: bool)
    requires WellFormed(cfg, c.rec) && Bought(c) && t in c.tasks && c.tasks[t].Holding?
    ensures Bought(StepApply(c, t, clash, stale))
  {
    hide WellFormed, ApplyResult, IsQueued;
    ApplyOutcomes(cfg, c.rec, c.tasks[t].result, clash, stale);
    if Condemned(StepApply(c, t, clash, stale)) { assert Condemned(c); }
  }

  lemma ApplyKeepsGuarded(cfg: Settings, c: Cell, t: nat, clash: bool, stale: bool)
    requires WellFormed(cfg, c.rec) && Guarded(c) && t in c.tasks && c.tasks[t].Holding?
    ensures Guarded(StepApply(c, t, clash, stale))
  {
    hide WellFormed, StepApply, SubmittingFits, OneAtATime, BuyingExcludesRefund, Bought;
    ApplyKeepsOrder(cfg, c, t, clash, stale);
    ApplyKeepsApart(cfg, c, t, clash, stale);
    ApplyKeepsBought(cfg, c, t, clash, stale);
  }

  lemma AskingKeepsOrder(c: Cell, t: nat, after: Cell)
    requires SubmittingFits(c.rec) && OneAtATime(c) && t !in c.tasks && MayAsk(c, t, after)
    ensures SubmittingFits(after.rec) && OneAtATime(after)
  {
    hide IsDefiniteFailure, IsQueued;
  }

  lemma AskingKeepsRest(c: Cell, t: nat, after: Cell)
    requires BuyingExcludesRefund(c) && Bought(c) && t !in c.tasks && MayAsk(c, t, after)
    ensures BuyingExcludesRefund(after) && Bought(after)
  {
    hide IsDefiniteFailure, IsQueued;
    if RefundUnderWay(after) { assert RefundUnderWay(c); }
    if SomeoneWorks(after) { assert SomeoneWorks(c); }
    if Condemned(after) { assert Condemned(c); }
  }

  lemma ReconciliationKeepsGuarded(cfg: Settings, c: Cell, t: nat)
    requires Sound(cfg, c.rec) && Guarded(c) && t !in c.tasks
    ensures Guarded(Happen(cfg, c, StartReconciliation(t)))
  {
    ReconciliationAsks(cfg, c, t);
    hide Sound, Happen, MayAsk, SubmittingFits, OneAtATime, BuyingExcludesRefund, Bought;
    AskingKeepsOrder(c, t, Happen(cfg, c, StartReconciliation(t)));
    AskingKeepsRest(c, t, Happen(cfg, c, StartReconciliation(t)));
  }

  lemma ApproveKeepsGuarded(cfg: Settings, c: Cell, t: nat)
    requires WellFormed(cfg, c.rec) && Guarded(c) && t in c.tasks && c.tasks[t].RetrySeen?
    requires Supervised(StepApprove(c, t).tally)
    ensures Guarded(StepApprove(c, t))
  {
    hide WellFormed;
    ApprovalTarget(cfg, c.rec);
    hide ApproveBalanceRetry, IsDefiniteFailure, IsQueued;
    var after := StepApprove(c, t);
    assert forall u :: u in after.tasks <==> u in c.tasks && u != t;
    assert forall u :: u in after.tasks ==> after.tasks[u] == c.tasks[u];
    if RefundUnderWay(after) { assert RefundUnderWay(c); }
    if SomeoneWorks(after) { assert SomeoneWorks(c); }
    if Condemned(after) { assert Condemned(c); }
  }

  lemma ApprovalTarget(cfg: Settings, r: Rec)
    requires WellFormed(cfg, r)
    ensures
      var res := ApproveBalanceRetry(r);
      res.Ok? ==>
        && r.attempt.Some? && !HasRequest(r) && res.value.order.status.PurchaseProcessing?
        && res.value.attempt
           == Some(r.attempt.value.(status := Submitting, errorCode := Some(BalanceRetryApproved)))
  {
    hide StatusNotes;
  }

  lemma CrashKeepsGuarded(cfg: Settings, c: Cell, t: nat)
    requires Guarded(c) && t in c.tasks
    ensures Guarded(Happen(cfg, c, Crash(t)))
  {
    hide IsDefiniteFailure, IsQueued;
    var after := Happen(cfg, c, Crash(t));
    assert forall u :: u in after.tasks <==> u in c.tasks && u != t;
    assert forall u :: u in after.tasks ==> after.tasks[u] == c.tasks[u];
    if RefundUnderWay(after) { assert RefundUnderWay(c); }
    if SomeoneWorks(after) { assert SomeoneWorks(c); }
    if Condemned(after) { assert Condemned(c); }
  }

  lemma DeliveredKeepsGuarded(cfg: Settings, c: Cell, k: nat)
    requires Guarded(c) && k < c.tally.posts
    ensures Guarded(Happen(cfg, c, ProviderDelivers(k)))
  {
    hide IsDefiniteFailure, IsQueued;
    var after := Happen(cfg, c, ProviderDelivers(k));
    if Condemned(after) { assert Condemned(c); }
    if RefundUnderWay(after) { assert RefundUnderWay(c); }
    if SomeoneWorks(after) { assert SomeoneWorks(c); }
  }

  // ---------------------------------------------------------------- runs

  lemma DisorderStays(cfg: Settings, c: Cell, e: Event)
    ensures Supervised(Step(cfg, c, e).tally) ==> Supervised(c.tally)
  {
    if e.StartDelivery? {
      OverlapStays(cfg, c, e.task, e.hold);
      hide StepDelivery;
    } else {
      hide StepDelivery, Execute, ApplyResult, ApproveBalanceRetry, FinishRefund, RefundMatches, BeginRefund;
      hide BeginReconciliation, BeginTestConfirmation, EndTestConfirmation, InitiateYoo, IsDefiniteFailure, IsQueued, Drop;
    }
  }

  lemma OverlapStays(cfg: Settings, c: Cell, t: nat, hold: bool)
    ensures Supervised(StepDelivery(cfg, c, t, hold).tally) ==> Supervised(c.tally)
  {
    hide BeginDelivery, DeliveryRunning;
  }

  lemma BesideStepSides(cfg: Settings, c: Cell, e: Event)
    requires Sound(cfg, c.rec) && Enabled(cfg, c, e)
    requires e.Transact? || IsPaymentStep(e) || e.StartRefund? || e.SendRefund? || e.EndRefund?
    ensures SidesWith(c, Happen(cfg, c, e)) && RefundsOnlyDue(c, Happen(cfg, c, e))
  {
    hide WellFormed, Chronicle, Happen, SidesWith, RefundsOnlyDue;
    if e.Transact? {
      TransactionSides(cfg, c, e.op);
      TransactionRefunds(cfg, c, e.op);
    } else if IsPaymentStep(e) {
      PaymentStepSides(cfg, c, e);
      PaymentRefunds(cfg, c, e);
    } else {
      RefundStepSides(cfg, c, e);
      RefundRefunds(cfg, c, e);
    }
  }

  lemma BesideStepKeepsGuarded(cfg: Settings, c: Cell, e: Event)
    requires Sound(cfg, c.rec) && Guarded(c) && Enabled(cfg, c, e)
    requires e.Transact? || IsPaymentStep(e) || e.StartRefund? || e.SendRefund? || e.EndRefund?
    ensures Guarded(Happen(cfg, c, e))
  {
    hide WellFormed, Chronicle, Guarded, Happen, SidesWith, RefundsOnlyDue;
    BesideStepSides(cfg, c, e);
    BesideKeepsGuarded(c, Happen(cfg, c, e));
  }

  lemma StepKeepsGuarded(cfg: Settings, c: Cell, e: Event)
    requires Sound(cfg, c.rec) && Fenced(c) && (Supervised(c.tally) ==> Guarded(c))
    ensures Supervised(Step(cfg, c, e).tally) ==> Guarded(Step(cfg, c, e))
  {
    DisorderStays(cfg, c, e);
    hide WellFormed, Chronicle, Fenced, Guarded, StepDelivery, StepApply, StepApprove;
    if Enabled(cfg, c, e) && Supervised(Step(cfg, c, e).tally) {
      match e {
        case StartDelivery(t, hold) => DeliveryKeepsGuarded(cfg, c, t, hold);
        case SendPurchase(t) => SendKeepsGuarded(cfg, c, t);
        case AnswerPurchase(_, _) => AnswerKeepsGuarded(cfg, c, e);
        case AnswerCheck(_, _) => AnswerKeepsGuarded(cfg, c, e);
        case Apply(t, clash, stale) => ApplyKeepsGuarded(cfg, c, t, clash, stale);
        case StartReconciliation(t) => ReconciliationKeepsGuarded(cfg, c, t);
        case Approve(t) => ApproveKeepsGuarded(cfg, c, t);
        case ProviderDelivers(k) => DeliveredKeepsGuarded(cfg, c, k);
        case Crash(t) => CrashKeepsGuarded(cfg, c, t);
        case _ => BesideStepKeepsGuarded(cfg, c, e);
      }
    }
  }

  lemma BeginGuarded(cfg: Settings, info: OrderInfo, testPaymentId: string)
    requires ValidRequest(cfg, info)
    ensures Guarded(Begin(cfg, info, testPaymentId))
  {
    CreatedRowsWellFormed(cfg, info, testPaymentId);
    hide IsDefiniteFailure, IsQueued;
  }

  lemma {:induction false} RunKeepsGuarded(cfg: Settings, info: OrderInfo, testPaymentId: string, events: seq<Event>)
    requires ValidRequest(cfg, info)
    ensures
      var c := Run(cfg, Begin(cfg, info, testPaymentId), events);
      Supervised(c.tally) ==> Guarded(c)
  {
    var start := Begin(cfg, info, testPaymentId);
    if events == [] {
      BeginGuarded(cfg, info, testPaymentId);
    } else {
      var earlier := events[..|events| - 1];
      BeginIsSound(cfg, info, testPaymentId);
      RunKeeps(cfg, start, earlier);
      RunKeepsPurchase(cfg, info, testPaymentId, earlier);
      RunKeepsGuarded(cfg, info, testPaymentId, earlier);
      hide Step, Begin, Sound, Fenced, Guarded;
      StepKeepsGuarded(cfg, Run(cfg, start, earlier), events[|events| - 1]);
    }
  }

  // ---------------------------------------------------------------- every earlier purchase was denied

  /** One delivery at a time, every answer committed, fresh request identifiers, and approvals on the current status. */
  predicate Ordered(tally: Tally) {
    Orderly(tally) && !tally.disorder.outdated
  }

  predicate AllDenied(tally: Tally) {
    forall k: nat :: k < tally.posts ==> k in tally.word.denied
  }

  ghost predicate SomePermit(c: Cell) {
    exists t :: t in c.tasks && c.tasks[t].Permit?
  }

  ghost predicate SomePosted(c: Cell) {
    exists t :: t in c.tasks && AfterPost(c.tasks[t])
  }

  /** Whoever treats the last purchase as failed, or may send the next one, knows that all of them were denied. */
  ghost predicate NeedsDenial(c: Cell) {
    Condemned(c) || SomePermit(c) || (LiveToken(c.rec) && !SomePosted(c))
  }

  /** Every answer in flight is about the last purchase. */
  ghost predicate AboutLast(c: Cell) {
    && (forall t :: t in c.tasks && (AfterPost(c.tasks[t]) || c.tasks[t].Checking?) ==>
          c.tasks[t].purchase + 1 == c.tally.posts)
    && (forall t :: t in c.tasks && c.tasks[t].Holding? && Informed(c.tasks[t].result) ==>
          c.tasks[t].purchase + 1 == c.tally.posts)
    && (HasRequest(c.rec) ==> c.tally.queued + 1 == c.tally.posts)
  }

  /** All purchases but the last were denied by the provider, and the last one too before anything builds on that. */
  ghost predicate Accounted(c: Cell) {
    && (forall k: nat :: k + 1 < c.tally.posts ==> k in c.tally.word.denied)
    && (NeedsDenial(c) ==> AllDenied(c.tally))
    && AboutLast(c)
  }

  lemma BesideKeepsAccounted(c: Cell, after: Cell)
    requires Accounted(c) && SidesWith(c, after) && RefundsOnlyDue(c, after)
    ensures Accounted(after)
  {
    hide IsDefiniteFailure, IsQueued, HoldsRetryToken;
    if Condemned(after) { assert Condemned(c); }
    if SomePermit(after) { assert SomePermit(c); }
    if SomePosted(c) { assert SomePosted(after); }
    if LiveToken(after.rec) { assert LiveToken(c.rec); }
  }

  lemma ScheduledKeepsAboutLast(c: Cell, t: nat, task: Task, after: Cell)
    requires AboutLast(c) && after.tasks == c.tasks[t := task] && after.tally.posts == c.tally.posts
    requires after.tally.queued == c.tally.queued && (HasRequest(after.rec) ==> HasRequest(c.rec))
    requires !AfterPost(task) && !(task.Holding? && Informed(task.result))
    requires task.Checking? ==> task.purchase == c.tally.queued && HasRequest(c.rec)
    ensures AboutLast(after)
  {
    hide HasRequest, Informed, AfterPost;
    assert forall u :: u in after.tasks && u != t ==> u in c.tasks && after.tasks[u] == c.tasks[u];
  }

  lemma DeliveryKeepsAboutLast(cfg: Settings, c: Cell, t: nat, hold: bool)
    requires WellFormed(cfg, c.rec) && AboutLast(c) && t !in c.tasks
    ensures AboutLast(StepDelivery(cfg, c, t, hold))
  {
    DeliveryShape(cfg, c, t, hold);
    DeliveryTally(cfg, c, t, hold);
    var after := StepDelivery(cfg, c, t, hold);
    hide WellFormed, StepDelivery, DeliveryRunning;
    if after.tasks != c.tasks {
      hide AboutLast;
      assert t in after.tasks;
      ScheduledKeepsAboutLast(c, t, after.tasks[t], after);
    }
  }

  /** A delivery only gets a permit where all earlier purchases were denied. */
  lemma DeliveryNeedsDenial(cfg: Settings, c: Cell, t: nat, hold: bool)
    requires WellFormed(cfg, c.rec) && Fenced(c) && t !in c.tasks
    requires !StepDelivery(cfg, c, t, hold).tally.disorder.overlapped
    requires NeedsDenial(StepDelivery(cfg, c, t, hold)) && !(c.rec.attempt.None? && c.tally.posts == 0)
    ensures NeedsDenial(c)
  {
    hide WellFormed, BeginDelivery, DeliveryRunning;
    DeliveryOutcomes(cfg, c.rec, hold);
    var after := StepDelivery(cfg, c, t, hold);
    assert !DeliveryRunning(c);
    NoDeliveryNoPost(c);
    if Condemned(after) { DeliveryCondemnsNothing(cfg, c, t, hold); }
    if SomePermit(after) && !SomePermit(c) { assert after.tasks[t].Permit?; }
    if LiveToken(after.rec) { assert c.rec.attempt.Some? ==> LiveToken(c.rec); }
  }

  lemma NoDeliveryNoPost(c: Cell)
    requires Fenced(c) && !DeliveryRunning(c)
    ensures !SomePosted(c)
  {
    hide IsDefiniteFailure, IsQueued;
  }

  lemma DeliveryKeepsAccounted(cfg: Settings, c: Cell, t: nat, hold: bool)
    requires WellFormed(cfg, c.rec) && Fenced(c) && Accounted(c) && t !in c.tasks
    requires !StepDelivery(cfg, c, t, hold).tally.disorder.overlapped
    ensures Accounted(StepDelivery(cfg, c, t, hold))
  {
    var after := StepDelivery(cfg, c, t, hold);
    assert c.rec.attempt.None? ==> c.tally.posts == 0;
    DeliveryTally(cfg, c, t, hold);
    DeliveryKeepsAboutLast(cfg, c, t, hold);
    hide WellFormed, StepDelivery, Fenced, NeedsDenial, AboutLast, DeliveryRunning;
    if NeedsDenial(after) && c.tally.posts > 0 { DeliveryNeedsDenial(cfg, c, t, hold); }
  }

  /** Where a permit is left, no answer is in flight. */
  lemma PermitIsAlone(c: Cell, t: nat)
    requires Fenced(c) && Guarded(c) && t in c.tasks && c.tasks[t].Permit?
    ensures !SomePosted(c) && !HasRequest(c.rec)
    ensures forall u :: u in c.tasks ==> !c.tasks[u].Checking?
    ensures forall u :: u in c.tasks && c.tasks[u].Holding? ==> !Informed(c.tasks[u].result)
    ensures forall u :: u in c.tasks && c.tasks[u].Permit? ==> u == t
  {
    hide IsDefiniteFailure, IsQueued, Bought, BuyingExcludesRefund;
    assert forall u :: u in c.tasks && Locked(c.tasks[u]) ==> u == t;
  }

  lemma SendKeepsAboutLast(cfg: Settings, c: Cell, t: nat)
    requires Fenced(c) && Guarded(c) && t in c.tasks && c.tasks[t].Permit?
    ensures AboutLast(Happen(cfg, c, SendPurchase(t)))
  {
    PermitIsAlone(c, t);
    hide IsDefiniteFailure, IsQueued, Informed, Guarded, Fenced, HasRequest;
    var after := Happen(cfg, c, SendPurchase(t));
    assert forall u :: u in after.tasks && u != t ==> u in c.tasks && after.tasks[u] == c.tasks[u];
    assert forall u :: u in c.tasks ==> !AfterPost(c.tasks[u]);
  }

  lemma SendNeedsNoDenial(cfg: Settings, c: Cell, t: nat)
    requires Fenced(c) && Guarded(c) && t in c.tasks && c.tasks[t].Permit?
    ensures !NeedsDenial(Happen(cfg, c, SendPurchase(t)))
  {
    PermitIsAlone(c, t);
    PermitIsNotCondemned(c, t);
    hide IsDefiniteFailure, IsQueued, Guarded, Fenced, LiveToken, HasRequest;
    var after := Happen(cfg, c, SendPurchase(t));
    assert forall u :: u in after.tasks && u != t ==> u in c.tasks && after.tasks[u] == c.tasks[u];
    assert AfterPost(after.tasks[t]) && SomePosted(after);
    assert !Condemned(after);
    assert !SomePermit(after);
  }

  lemma SendKeepsAccounted(cfg: Settings, c: Cell, t: nat)
    requires Fenced(c) && Guarded(c) && Accounted(c) && t in c.tasks && c.tasks[t].Permit?
    ensures Accounted(Happen(cfg, c, SendPurchase(t)))
  {
    assert SomePermit(c) && AllDenied(c.tally);
    hide Guarded, Fenced, AboutLast, NeedsDenial;
    SendKeepsAboutLast(cfg, c, t);
    SendNeedsNoDenial(cfg, c, t);
  }

  lemma AnswerKeepsAboutLast(cfg: Settings, c: Cell, e: Event)
    requires AboutLast(c) && Enabled(cfg, c, e) && (e.AnswerPurchase? || e.AnswerCheck?)
    ensures AboutLast(Happen(cfg, c, e))
  {
    hide IsDefiniteFailure, IsQueued, Informed;
    var after := Happen(cfg, c, e);
    assert after.tasks[e.task].purchase == c.tasks[e.task].purchase;
    assert forall t :: t in after.tasks && t != e.task ==> t in c.tasks && after.tasks[t] == c.tasks[t];
    assert AfterPost(c.tasks[e.task]) || c.tasks[e.task].Checking?;
  }

  lemma AnswerNeedsDenial(cfg: Settings, c: Cell, e: Event)
    requires Enabled(cfg, c, e) && (e.AnswerPurchase? || e.AnswerCheck?)
    requires NeedsDenial(Happen(cfg, c, e)) && !IsDefiniteFailure(e.result)
    ensures NeedsDenial(c)
  {
    hide IsDefiniteFailure, IsQueued, LiveToken;
    var after := Happen(cfg, c, e);
    assert forall t :: t in after.tasks && t != e.task ==> t in c.tasks && after.tasks[t] == c.tasks[t];
    assert AfterPost(c.tasks[e.task]) ==> AfterPost(after.tasks[e.task]);
    if Condemned(after) { assert Condemned(c); }
    if SomePermit(after) { assert SomePermit(c); }
    if SomePosted(c) { assert SomePosted(after); }
  }

  lemma AnswerKeepsAccounted(cfg: Settings, c: Cell, e: Event)
    requires Accounted(c) && Enabled(cfg, c, e) && (e.AnswerPurchase? || e.AnswerCheck?)
    ensures Accounted(Happen(cfg, c, e))
  {
    AnswerKeepsAboutLast(cfg, c, e);
    var after := Happen(cfg, c, e);
    assert AfterPost(c.tasks[e.task]) || c.tasks[e.task].Checking?;
    assert c.tasks[e.task].purchase + 1 == c.tally.posts;
    assert after.tally == Hear(c.tally, c.tasks[e.task].purchase, e.result);
    hide Happen, NeedsDenial, AboutLast, IsQueued, IsDefiniteFailure;
    if NeedsDenial(after) && !IsDefiniteFailure(e.result) { AnswerNeedsDenial(cfg, c, e); }
  }

  lemma ApplyKeepsAboutLast(cfg: Settings, c: Cell, t: nat, clash: bool, stale: bool)
    requires WellFormed(cfg, c.rec) && AboutLast(c) && t in c.tasks && c.tasks[t].Holding?
    ensures AboutLast(StepApply(c, t, clash, stale))
  {
    hide WellFormed, ApplyResult, IsDefiniteFailure;
    ApplyOutcomes(cfg, c.rec, c.tasks[t].result, clash, stale);
    var after := StepApply(c, t, clash, stale);
    assert forall u :: u in after.tasks ==> u in c.tasks && after.tasks[u] == c.tasks[u];
  }

  /** An applied answer leaves no live token behind, unless it was refused for a reused request identifier. */
  lemma ApplySpendsToken(cfg: Settings, c: Cell, t: nat, clash: bool, stale: bool)
    requires WellFormed(cfg, c.rec) && t in c.tasks && c.tasks[t].Holding?
    requires !StepApply(c, t, clash, stale).tally.disorder.reusedRequest
    ensures !LiveToken(StepApply(c, t, clash, stale).rec)
  {
    var result := c.tasks[t].result;
    hide WellFormed, ApplyResult, IsDefiniteFailure;
    ApplyOutcomes(cfg, c.rec, result, clash, stale);
    if LiveToken(c.rec) { LiveAnswerCommits(cfg, c.rec, result, clash, stale); }
  }

  lemma ApplyKeepsAccounted(cfg: Settings, c: Cell, t: nat, clash: bool, stale: bool)
    requires WellFormed(cfg, c.rec) && Accounted(c) && t in c.tasks && c.tasks[t].Holding?
    requires !StepApply(c, t, clash, stale).tally.disorder.reusedRequest
    ensures Accounted(StepApply(c, t, clash, stale))
  {
    ApplyKeepsAboutLast(cfg, c, t, clash, stale);
    ApplySpendsToken(cfg, c, t, clash, stale);
    ApplyCondemnsNothing(cfg, c, t, clash, stale);
    var after := StepApply(c, t, clash, stale);
    assert after.tally.posts == c.tally.posts && after.tally.word == c.tally.word;
    if SomePermit(after) { assert SomePermit(c); }
    hide WellFormed, StepApply, AboutLast, Condemned, LiveToken, SomePermit, SomePosted;
  }

  lemma ApplyCondemnsNothing(cfg: Settings, c: Cell, t: nat, clash: bool, stale: bool)
    requires WellFormed(cfg, c.rec) && t in c.tasks && c.tasks[t].Holding?
    ensures Condemned(StepApply(c, t, clash, stale)) ==> Condemned(c)
  {
    hide WellFormed, ApplyResult, IsQueued;
    ApplyOutcomes(cfg, c.rec, c.tasks[t].result, clash, stale);
    if Condemned(StepApply(c, t, clash, stale)) { assert Condemned(c); }
  }

  lemma AskingKeepsAboutLast(c: Cell, t: nat, after: Cell)
    requires AboutLast(c) && t !in c.tasks && MayAsk(c, t, after)
    ensures AboutLast(after)
  {
    hide IsDefiniteFailure, IsQueued;
  }

  lemma AskingNeedsDenial(c: Cell, t: nat, after: Cell)
    requires NeedsDenial(after) && t !in c.tasks && MayAsk(c, t, after)
    ensures NeedsDenial(c)
  {
    hide IsDefiniteFailure, IsQueued;
    assert forall u :: u in c.tasks ==> u in after.tasks && after.tasks[u] == c.tasks[u];
    if Condemned(after) { assert Condemned(c); }
    if SomePermit(after) { assert SomePermit(c); }
    if SomePosted(c) { assert SomePosted(after); }
    if LiveToken(after.rec) { assert LiveToken(c.rec); }
  }

  lemma ReconciliationKeepsAccounted(cfg: Settings, c: Cell, t: nat)
    requires Sound(cfg, c.rec) && Accounted(c) && t !in c.tasks
    ensures Accounted(Happen(cfg, c, StartReconciliation(t)))
  {
    ReconciliationAsks(cfg, c, t);
    var after := Happen(cfg, c, StartReconciliation(t));
    assert after.tally == c.tally;
    hide Sound, Happen, MayAsk, AboutLast, NeedsDenial;
    AskingKeepsAboutLast(c, t, after);
    if NeedsDenial(after) { AskingNeedsDenial(c, t, after); }
  }

  lemma ApproveKeepsAccounted(cfg: Settings, c: Cell, t: nat)
    requires WellFormed(cfg, c.rec) && Accounted(c) && t in c.tasks && c.tasks[t].RetrySeen?
    requires !StepApprove(c, t).tally.disorder.outdated
    ensures Accounted(StepApprove(c, t))
  {
    ApprovalTarget(cfg, c.rec);
    hide WellFormed, ApproveBalanceRetry, IsDefiniteFailure, IsQueued, HoldsRetryToken;
    var after := StepApprove(c, t);
    assert forall u :: u in after.tasks <==> u in c.tasks && u != t;
    assert forall u :: u in after.tasks ==> after.tasks[u] == c.tasks[u];
    assert after.rec != c.rec ==> Condemned(c);
    if Condemned(after) { assert Condemned(c); }
    if SomePermit(after) { assert SomePermit(c); }
    if SomePosted(c) { assert SomePosted(after); }
  }

  lemma CrashNeedsDenial(cfg: Settings, c: Cell, t: nat)
    requires t in c.tasks && !AfterPost(c.tasks[t]) && NeedsDenial(Happen(cfg, c, Crash(t)))
    ensures NeedsDenial(c)
  {
    hide IsDefiniteFailure, IsQueued, LiveToken;
    var after := Happen(cfg, c, Crash(t));
    assert forall u :: u in after.tasks <==> u in c.tasks && u != t;
    assert forall u :: u in after.tasks ==> after.tasks[u] == c.tasks[u];
    if Condemned(after) { assert Condemned(c); }
    if SomePermit(after) { assert SomePermit(c); }
    if SomePosted(c) { assert SomePosted(after); }
  }

  lemma CrashKeepsAboutLast(cfg: Settings, c: Cell, t: nat)
    requires AboutLast(c) && t in c.tasks
    ensures AboutLast(Happen(cfg, c, Crash(t)))
  {
    hide IsDefiniteFailure, IsQueued, Informed;
  }

  lemma CrashKeepsAccounted(cfg: Settings, c: Cell, t: nat)
    requires Accounted(c) && t in c.tasks
    requires !Happen(cfg, c, Crash(t)).tally.disorder.lostAnswer
    ensures Accounted(Happen(cfg, c, Crash(t)))
  {
    var after := Happen(cfg, c, Crash(t));
    assert after.tally.posts == c.tally.posts && after.tally.word == c.tally.word && !AfterPost(c.tasks[t]);
    hide Happen, AboutLast, NeedsDenial;
    CrashKeepsAboutLast(cfg, c, t);
    if NeedsDenial(after) { CrashNeedsDenial(cfg, c, t); }
  }

  lemma DeliveredKeepsAccounted(cfg: Settings, c: Cell, k: nat)
    requires Accounted(c) && k < c.tally.posts
    ensures Accounted(Happen(cfg, c, ProviderDelivers(k)))
  {
    hide IsDefiniteFailure, IsQueued, LiveToken;
    var after := Happen(cfg, c, ProviderDelivers(k));
    if Condemned(after) { assert Condemned(c); }
    if SomePermit(after) { assert SomePermit(c); }
    if SomePosted(c) { assert SomePosted(after); }
  }

  lemma BesideStepKeepsAccounted(cfg: Settings, c: Cell, e: Event)
    requires Sound(cfg, c.rec) && Accounted(c) && Enabled(cfg, c, e)
    requires e.Transact? || IsPaymentStep(e) || e.StartRefund? || e.SendRefund? || e.EndRefund?
    ensures Accounted(Happen(cfg, c, e))
  {
    hide WellFormed, Chronicle, Accounted, Happen, SidesWith, RefundsOnlyDue;
    BesideStepSides(cfg, c, e);
    BesideKeepsAccounted(c, Happen(cfg, c, e));
  }

  lemma OrderStays(cfg: Settings, c: Cell, e: Event)
    ensures Ordered(Step(cfg, c, e).tally) ==> Ordered(c.tally)
  {
    if e.StartDelivery? { DeliveryTally(cfg, c, e.task, e.hold); }
    hide StepDelivery, Execute, ApplyResult, ApproveBalanceRetry, FinishRefund, RefundMatches, BeginRefund, DeliveryRunning;
    hide BeginReconciliation, BeginTestConfirmation, EndTestConfirmation, InitiateYoo, IsDefiniteFailure, IsQueued, Drop;
  }

  /** The transactions of the purchase that read or write the attempt. */
  lemma AttemptStepKeepsAccounted(cfg: Settings, c: Cell, e: Event)
    requires Sound(cfg, c.rec) && Fenced(c) && Accounted(c) && Enabled(cfg, c, e) && Ordered(Happen(cfg, c, e).tally)
    requires e.StartDelivery? || e.Apply? || e.Approve?
    ensures Accounted(Happen(cfg, c, e))
  {
    hide WellFormed, Chronicle, Fenced, Accounted, StepDelivery, StepApply, StepApprove;
    match e
    case StartDelivery(t, hold) => DeliveryKeepsAccounted(cfg, c, t, hold);
    case Apply(t, clash, stale) => ApplyKeepsAccounted(cfg, c, t, clash, stale);
    case Approve(t) => ApproveKeepsAccounted(cfg, c, t);
  }

  lemma StepKeepsAccounted(cfg: Settings, c: Cell, e: Event)
    requires Sound(cfg, c.rec) && Fenced(c) && (Supervised(c.tally) ==> Guarded(c)) && (Ordered(c.tally) ==> Accounted(c))
    ensures Ordered(Step(cfg, c, e).tally) ==> Accounted(Step(cfg, c, e))
  {
    OrderStays(cfg, c, e);
    hide Sound, Fenced, Guarded, Accounted, Happen;
    if Enabled(cfg, c, e) && Ordered(Step(cfg, c, e).tally) {
      match e {
        case SendPurchase(t) => SendKeepsAccounted(cfg, c, t);
        case AnswerPurchase(_, _) => AnswerKeepsAccounted(cfg, c, e);
        case AnswerCheck(_, _) => AnswerKeepsAccounted(cfg, c, e);
        case StartReconciliation(t) => ReconciliationKeepsAccounted(cfg, c, t);
        case ProviderDelivers(k) => DeliveredKeepsAccounted(cfg, c, k);
        case Crash(t) => CrashKeepsAccounted(cfg, c, t);
        case _ =>
          if e.StartDelivery? || e.Apply? || e.Approve? { AttemptStepKeepsAccounted(cfg, c, e); }
          else { BesideStepKeepsAccounted(cfg, c, e); }
      }
    }
  }

  lemma BeginAccounted(cfg: Settings, info: OrderInfo, testPaymentId: string)
    requires ValidRequest(cfg, info)
    ensures Accounted(Begin(cfg, info, testPaymentId))
  {
    CreatedRowsWellFormed(cfg, info, testPaymentId);
    hide IsDefiniteFailure, IsQueued;
  }

  lemma {:induction false} RunKeepsAccounted(cfg: Settings, info: OrderInfo, testPaymentId: string, events: seq<Event>)
    requires ValidRequest(cfg, info)
    ensures
      var c := Run(cfg, Begin(cfg, info, testPaymentId), events);
      Ordered(c.tally) ==> Accounted(c)
  {
    var start := Begin(cfg, info, testPaymentId);
    if events == [] {
      BeginAccounted(cfg, info, testPaymentId);
    } else {
      var earlier := events[..|events| - 1];
      BeginIsSound(cfg, info, testPaymentId);
      RunKeeps(cfg, start, earlier);
      RunKeepsPurchase(cfg, info, testPaymentId, earlier);
      RunKeepsGuarded(cfg, info, testPaymentId, earlier);
      RunKeepsAccounted(cfg, info, testPaymentId, earlier);
      hide Step, Begin, Sound, Fenced, Guarded, Accounted;
      StepKeepsAccounted(cfg, Run(cfg, start, earlier), events[|events| - 1]);
    }
  }

  // ---------------------------------------------------------------- main results

  /**
   However often a purchase is retried: if deliveries never overlap, every answer is committed, request identifiers are
   fresh, every retry is approved while the order waits for the merchant balance, and the provider never delivers a
   purchase that it reports as definitely failed, then an order whose refund was sent, or that is due a refund or
   refunded, never received Stars. PurchaseLimits shows that none of the first four can be dropped.
   */
  lemma RetriedDeliveryExcludesRefund(cfg: Settings, c: Cell)
    requires Reachable(cfg, c) && Ordered(c.tally) && !Contradicted(c.tally)
    ensures c.tally.refunds != [] || c.rec.order.status.RefundRequired? || c.rec.order.status.Refunded? ==>
              c.tally.word.delivered == {}
  {
    hide Run, Begin, AboutLast, SomePermit, LiveToken;
    var info, testPaymentId, events :|
      ValidRequest(cfg, info) && c == Run(cfg, Begin(cfg, info, testPaymentId), events);
    RunKeepsPurchase(cfg, info, testPaymentId, events);
    RunKeepsAccounted(cfg, info, testPaymentId, events);
    if Condemned(c) { DeliveredAreNotDenied(c.tally); }
  }

  lemma DeliveredAreNotDenied(tally: Tally)
    requires !Contradicted(tally)
    ensures forall k :: k in tally.word.delivered ==> k !in tally.word.denied
  {
    assert forall k :: k in tally.word.delivered && k in tally.word.denied <==> k in tally.word.delivered * tally.word.denied;
  }

  /** In the same runs every purchase but the last was denied before the next one was sent, so at most one delivers. */
  lemma AtMostOnePurchaseDelivers(cfg: Settings, c: Cell)
    requires Reachable(cfg, c) && Ordered(c.tally) && !Contradicted(c.tally)
    ensures |c.tally.word.delivered| <= 1
  {
    hide Run, Begin, AboutLast, NeedsDenial;
    var info, testPaymentId, events :|
      ValidRequest(cfg, info) && c == Run(cfg, Begin(cfg, info, testPaymentId), events);
    RunKeepsPurchase(cfg, info, testPaymentId, events);
    RunKeepsAccounted(cfg, info, testPaymentId, events);
    DeliveredAreNotDenied(c.tally);
    if c.tally.word.delivered != {} { assert c.tally.word.delivered == {c.tally.posts - 1}; }
  }
}
