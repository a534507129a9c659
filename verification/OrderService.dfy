/**
 The order service: every transaction loads the rows through the repository, changes them step by step, and
 is rolled back when it raises. Each one does to the rows exactly what its function in OrderFlow says.
 */
module OrderService {
  import opened Domain
  import opened Ledger
  import opened OrderRepository
  import opened OrderInvariants
  import opened OrderPersistence
  import opened OrderSafety
  import opened Protocol
  import opened OrderCalls
  import Flow = OrderFlow

  /** A block that may have raised half way; on success it did what the specification says. */
  ghost predicate Ran(spec: Result<Rec>, out: Result<OrderStatus>, after: Rec) {
    if spec.Ok? then out == Ok(spec.value.order.status) && after == spec.value else out == Raise(spec.error)
  }

  /** A whole transaction: committed as specified, or without a trace. */
  ghost predicate Settled(spec: Result<Rec>, before: Rec, out: Result<OrderStatus>, after: Rec) {
    if spec.Ok? then out == Ok(spec.value.order.status) && after == spec.value
    else out == Raise(spec.error) && after == before
  }

  class Service {
    const cfg: Flow.Settings
    const repo: Repository

    constructor (cfg: Flow.Settings, repo: Repository)
      ensures this.cfg == cfg && this.repo == repo
    {
      this.cfg, this.repo := cfg, repo;
    }

    method Review(code: Code) returns (out: Result<OrderStatus>)
      modifies repo
      ensures Ran(Flow.Review(old(repo.View()), code), out, repo.View())
    {
      var _ :- repo.Transition(ManualReview, Some(code));
      return Ok(repo.order.status);
    }

    method ReviewPayment(code: Code) returns (out: Result<OrderStatus>)
      modifies repo
      ensures Ran(Flow.ReviewPayment(old(repo.View()), code), out, repo.View())
    {
      repo.SetPaymentStatus(PayManualReview);
      out := Review(code);
    }

    // -------------------------------------------------------------- TON payments

    method SettleTon(seen: Flow.Sighting, now: int) returns (out: Result<OrderStatus>)
      requires repo.order.invoice.Some?
      modifies repo
      ensures Ran(Flow.SettleTon(cfg, old(repo.View()), seen, now), out, repo.View())
    {
      hide StatusNotes;
      var amount := repo.order.invoice.value.amount;
      if seen.amount != amount {
        out := ReviewPayment(if seen.amount < amount then PaymentUnderpaid else PaymentOverpaid);
        return;
      }
      if repo.order.status.PaymentExpired? || repo.order.status.Cancelled? {
        out := ReviewPayment(LatePayment);
        return;
      }
      if repo.order.expiresAt.Some? && seen.timestamp > repo.order.expiresAt.value {
        out := ReviewPayment(LatePayment);
        return;
      }
      if repo.order.status.WaitingForPayment? {
        var _ := repo.Transition(PaymentDetected, None);
        return Ok(repo.order.status);
      }
      if repo.order.status.PaymentDetected? {
        var _ := repo.Transition(PaymentConfirming, None);
        repo.SetPaymentStatus(PayConfirming);
        return Ok(repo.order.status);
      }
      if now - seen.timestamp < cfg.confirmationSeconds {
        return Ok(repo.order.status);
      }
      repo.SetPaymentStatus(PaySucceeded);
      var _ :- repo.Transition(Paid, None);
      return Ok(repo.order.status);
    }

    method ObserveTon(seen: Flow.Sighting, now: int, clash: bool, stale: bool) returns (out: Result<OrderStatus>)
      modifies repo
      ensures Ran(Flow.RecordTonObservation(cfg, old(repo.View()), seen, now, clash, stale), out, repo.View())
    {
      if repo.order.status.Completed? {
        return Ok(repo.order.status);
      }
      if repo.order.payType != Some(TonPay) || repo.order.invoice.None? {
        return Ok(repo.order.status);
      }
      if !Flow.AwaitsTon(repo.View()) {
        return Ok(repo.order.status);
      }
      if !Flow.OnRoute(repo.order, seen) {
        out := ReviewPayment(PaymentRouteMismatch);
        return;
      }
      if !Truthy(repo.order.tonHash) {
        var attached :- repo.RecordDetection(seen.hash, seen.amount, clash, stale);
        if !attached {
          out := Review(DuplicatePaymentTransaction);
          return;
        }
      } else if repo.order.tonHash.value != seen.hash {
        out := Review(MultiplePaymentTransactions);
        return;
      }
      out := SettleTon(seen, now);
    }

    method RecordTonObservation(seen: Flow.Sighting, now: int, clash: bool, stale: bool) returns (out: Result<OrderStatus>)
      modifies repo
      ensures Settled(Flow.RecordTonObservation(cfg, old(repo.View()), seen, now, clash, stale),
                      old(repo.View()), out, repo.View())
    {
      var saved := repo.View();
      out := ObserveTon(seen, now, clash, stale);
      if out.Raise? { repo.Restore(saved); }
    }

    // -------------------------------------------------------------- YooKassa payments

    method InitiateYooKassa(now: int, expiresAt: int) returns (plan: Result<Flow.ChargePlan>)
      modifies repo
      ensures
        var spec := Flow.InitiateYoo(old(repo.View()), now, expiresAt);
        if spec.Ok? then plan == Ok(spec.value.1) && repo.View() == spec.value.0
        else plan == Raise(spec.error) && repo.View() == old(repo.View())
    {
      var r := repo.View();
      if r.order.payType.Some? && !r.order.payType.value.YooPay? {
        return Raise(Rejected);
      }
      if !r.order.status.Created? && !r.order.status.WaitingForPayment? {
        return Raise(Rejected);
      }
      if r.order.expiresAt.Some? && r.order.expiresAt.value <= now {
        return Raise(Rejected);
      }
      if r.payment.Some? && Truthy(r.payment.value.confirmationUrl) {
        return Ok(Flow.Reuse(r.payment.value.confirmationUrl.value));
      }
      var key := ChargeKey(r.order.info.number);
      if r.payment.Some? && r.payment.value.terms.idempotencyKey.Some? {
        key := r.payment.value.terms.idempotencyKey.value;
      }
      var _ := repo.SetupYooPayment(key, expiresAt);
      return Ok(Flow.Charge(key, repo.order.info.rubAmount));
    }

    method Advance(source: OrderStatus, target: OrderStatus) returns (out: Result<OrderStatus>)
      modifies repo
      ensures Ran(Flow.Advance(old(repo.View()), source, target), out, repo.View())
    {
      if repo.order.status == source {
        var _ :- repo.Transition(target, None);
      }
      return Ok(repo.order.status);
    }

    method TransitionYooStatus(snap: Flow.Snapshot) returns (out: Result<OrderStatus>)
      modifies repo
      ensures Ran(Flow.TransitionYooStatus(old(repo.View()), snap), out, repo.View())
    {
      hide StatusNotes;
      match snap.status {
        case SnapPending =>
          repo.SetPaymentStatus(PayPending);
        case SnapWaitingForCapture =>
          var _ :- Advance(WaitingForPayment, PaymentDetected);
          var _ :- Advance(PaymentDetected, PaymentConfirming);
          repo.SetPaymentStatus(PayWaitingForCapture);
        case SnapCanceled =>
          var _ :- Advance(PaymentDetected, PaymentConfirming);
          repo.SetPaymentStatus(PayCanceled);
          if repo.order.status.WaitingForPayment? || repo.order.status.PaymentConfirming? {
            var _ := repo.Transition(PaymentFailed, Some(YooKassaPaymentCanceled));
          }
        case SnapSucceeded =>
          if !snap.paid {
            return Raise(Rejected);
          }
          if repo.order.status.PaymentExpired? || repo.order.status.Cancelled? {
            repo.SetPaymentStatus(PaySucceeded);
            var _ := repo.Transition(ManualReview, Some(YooKassaLatePayment));
            return Ok(repo.order.status);
          }
          var _ :- Advance(WaitingForPayment, PaymentDetected);
          var _ :- Advance(PaymentDetected, PaymentConfirming);
          repo.SetPaymentStatus(PaySucceeded);
          var _ :- Advance(PaymentConfirming, Paid);
      }
      return Ok(repo.order.status);
    }

    method SyncPayment(snap: Flow.Snapshot, clash: bool) returns (out: Result<()>)
      requires Flow.IsYoo(repo.View())
      modifies repo
      ensures
        var reference := old(repo.payment).value.reference;
        if reference.ProviderReference? && reference.id != snap.paymentId then out == Raise(Rejected)
        else if clash then out == Raise(IntegrityError)
        else out == Ok(()) && repo.View() == Flow.Synced(old(repo.View()), snap)
    {
      var payment := repo.payment.value;
      if payment.reference.ProviderReference? && payment.reference.id != snap.paymentId {
        return Raise(Rejected);
      }
      payment := payment.(reference := ProviderReference(snap.paymentId), refundable := snap.refundable);
      if Truthy(snap.confirmationUrl) {
        payment := payment.(confirmationUrl := snap.confirmationUrl);
      }
      repo.payment := Some(payment);
      repo.order := repo.order.(paymentId := Some(snap.paymentId));
      return if clash then Raise(IntegrityError) else Ok(());
    }

    method ReadSnapshot(snap: Flow.Snapshot, clash: bool) returns (out: Result<OrderStatus>)
      modifies repo
      ensures Ran(Flow.ApplySnapshot(old(repo.View()), snap, clash), out, repo.View())
    {
      if snap.orderNumber != repo.order.info.number {
        return Raise(Rejected);
      }
      if snap.currency != "RUB" || snap.amount != repo.order.info.rubAmount {
        return Raise(Rejected);
      }
      if !Flow.IsYoo(repo.View()) {
        return Raise(Rejected);
      }
      if repo.payment.value.status.PaySucceeded? && !snap.status.SnapSucceeded? {
        return Raise(Rejected);
      }
      var _ :- SyncPayment(snap, clash);
      out := TransitionYooStatus(snap);
    }

    method ApplySnapshot(snap: Flow.Snapshot, clash: bool) returns (out: Result<OrderStatus>)
      modifies repo
      ensures Settled(Flow.ApplySnapshot(old(repo.View()), snap, clash), old(repo.View()), out, repo.View())
    {
      var saved := repo.View();
      out := ReadSnapshot(snap, clash);
      if out.Raise? { repo.Restore(saved); }
    }

    // -------------------------------------------------------------- test payments

    method BeginTestConfirmation() returns (confirm: Result<bool>)
      modifies repo
      ensures
        var spec := Flow.BeginTestConfirmation(cfg, old(repo.View()));
        if spec.Ok? then confirm == Ok(spec.value.1) && repo.View() == spec.value.0
        else confirm == Raise(spec.error) && repo.View() == old(repo.View())
    {
      hide StatusNotes;
      if !cfg.testMode {
        return Raise(Rejected);
      }
      if !repo.order.status.WaitingForPayment? || !Truthy(repo.order.paymentId) {
        return Ok(false);
      }
      var _ := repo.Transition(PaymentDetected, None);
      repo.SetPaymentStatus(PayDetected);
      var _ := repo.Transition(PaymentConfirming, None);
      repo.SetPaymentStatus(PayConfirming);
      return Ok(true);
    }

    method EndTestConfirmation(succeeded: bool) returns (out: Result<OrderStatus>)
      modifies repo
      ensures Settled(Flow.EndTestConfirmation(old(repo.View()), succeeded), old(repo.View()), out, repo.View())
    {
      if !repo.order.status.PaymentConfirming? {
        return Ok(repo.order.status);
      }
      if !succeeded {
        repo.SetPaymentStatus(PayFailed);
        var _ := repo.Transition(PaymentFailed, Some(TestPaymentFailed));
        return Ok(repo.order.status);
      }
      repo.SetPaymentStatus(PaySucceeded);
      var _ := repo.Transition(Paid, None);
      return Ok(repo.order.status);
    }

    // -------------------------------------------------------------- closing

    method ExpireIfNeeded(now: int) returns (out: Result<OrderStatus>)
      modifies repo
      ensures Settled(Flow.ExpireIfNeeded(old(repo.View()), now), old(repo.View()), out, repo.View())
    {
      var status := repo.order.status;
      if !status.WaitingForPayment? && !status.PaymentDetected? && !status.PaymentConfirming? {
        return Ok(status);
      }
      if repo.order.expiresAt.Some? && repo.order.expiresAt.value <= now {
        if status.WaitingForPayment? {
          repo.SetPaymentStatus(PayExpired);
          var _ := repo.Transition(PaymentExpired, None);
        } else {
          out := ReviewPayment(PaymentConfirmationLost);
          return;
        }
      }
      return Ok(repo.order.status);
    }

    method CancelOrder() returns (out: Result<OrderStatus>)
      modifies repo
      ensures Settled(Flow.CancelOrder(old(repo.View())), old(repo.View()), out, repo.View())
    {
      if !repo.order.status.Created? && !repo.order.status.WaitingForPayment? {
        return Ok(repo.order.status);
      }
      if Flow.IsYoo(repo.View()) {
        return Ok(repo.order.status);
      }
      if Truthy(repo.order.tonHash) {
        return Ok(repo.order.status);
      }
      var _ := repo.Transition(Cancelled, None);
      return Ok(repo.order.status);
    }

    method AdminReview() returns (out: Result<OrderStatus>)
      modifies repo
      ensures Settled(Flow.AdminReview(old(repo.View())), old(repo.View()), out, repo.View())
    {
      if repo.order.status.Completed? || repo.order.status.Refunded? || repo.order.status.PaymentFailed? {
        return Raise(Rejected);
      }
      var _ := repo.Transition(ManualReview, Some(AdminManualReview));
      return Ok(repo.order.status);
    }

    // -------------------------------------------------------------- purchase

    method OpenDelivery(hold: bool) returns (next: Result<Flow.Next>)
      modifies repo
      ensures
        var spec := Flow.BeginDelivery(cfg, old(repo.View()), hold);
        if spec.Ok? then next == Ok(spec.value.1) && repo.View() == spec.value.0 else next == Raise(spec.error)
    {
      if repo.order.status.Paid? {
        if hold {
          return Ok(Flow.Stop);
        }
        var problem := Flow.PurchaseValidationError(cfg, repo.View());
        if problem.Some? {
          var _ := repo.Transition(ManualReview, problem);
          return Ok(Flow.Stop);
        }
        var isNew := repo.CreateAttempt();
        var _ := repo.Transition(PurchaseProcessing, None);
        return Ok(Flow.NextCall(cfg, repo.attempt.value, isNew));
      }
      if repo.order.status.PurchaseProcessing? || repo.order.status.StarsSending? {
        if repo.attempt.None? {
          var _ := repo.Transition(ManualReview, Some(PurchaseAttemptMissing));
          return Ok(Flow.Stop);
        }
        return Ok(Flow.NextCall(cfg, repo.attempt.value, Flow.HoldsRetryToken(repo.attempt.value)));
      }
      return Ok(Flow.Stop);
    }

    method BeginDelivery(hold: bool) returns (next: Result<Flow.Next>)
      modifies repo
      ensures
        var spec := Flow.BeginDelivery(cfg, old(repo.View()), hold);
        if spec.Ok? then next == Ok(spec.value.1) && repo.View() == spec.value.0
        else next == Raise(spec.error) && repo.View() == old(repo.View())
    {
      var saved := repo.View();
      next := OpenDelivery(hold);
      if next.Raise? { repo.Restore(saved); }
    }

    method ReadResult(res: Flow.PurchaseResult, clash: bool, stale: bool) returns (out: Result<OrderStatus>)
      modifies repo
      ensures Ran(Flow.ApplyResult(old(repo.View()), res, clash, stale), out, repo.View())
    {
      if repo.attempt.None? {
        return Raise(MissingRow);
      }
      if repo.order.status.Completed? {
        return Ok(repo.order.status);
      }
      if Flow.IsQueued(res) {
        if repo.order.status.PurchaseProcessing? || repo.order.status.ManualReview? {
          var _ :- repo.MarkQueued(res.requestId.value, clash);
        } else {
          repo.MarkProcessing();
        }
        return Ok(repo.order.status);
      }
      if res.succeeded {
        if !Truthy(res.txId) {
          var _ :- repo.MarkFailed(PurchaseReferenceMissing, true);
          return Ok(repo.order.status);
        }
        var _ :- Advance(PurchaseProcessing, StarsSending);
        assert repo.attempt == old(repo.attempt);
        var _ :- repo.MarkSucceeded(res.txId.value, clash, stale);
        return Ok(repo.order.status);
      }
      if Flow.ResultCode(res).InsufficientBalance? || Flow.ResultCode(res).InsufficientWalletBalance? {
        var _ :- repo.MarkWaitingForBalance(Flow.ResultCode(res));
        return Ok(repo.order.status);
      }
      var _ :- repo.MarkFailed(Flow.ResultCode(res), res.uncertain);
      return Ok(repo.order.status);
    }

    method ApplyResult(res: Flow.PurchaseResult, clash: bool, stale: bool) returns (out: Result<OrderStatus>)
      modifies repo
      ensures Settled(Flow.ApplyResult(old(repo.View()), res, clash, stale), old(repo.View()), out, repo.View())
    {
      var saved := repo.View();
      out := ReadResult(res, clash, stale);
      if out.Raise? { repo.Restore(saved); }
    }

    /**
     A whole call of `deliver_paid_order`, as worker `t` of an order whose other workers do anything meanwhile; `reply` is
     what the provider answers if it is asked, `later` the rows that the second transaction loads.
     */
    method DeliverPaidOrder(ghost c: Cell, ghost t: nat, ghost m: Meanwhile, hold: bool, reply: Option<Flow.PurchaseResult>,
                            later: Rec, clash: bool, stale: bool)
      returns (out: Result<OrderStatus>)
      requires c.rec == repo.View() && t !in c.tasks && Undirected(m, t)
      requires later == Run(cfg, c, DeliveryEvents(cfg, c.rec, t, hold, reply, m)).rec
      modifies repo
      ensures repo.View() == Run(cfg, c, WholeDelivery(cfg, c.rec, t, hold, reply, m, clash, stale)).rec
      ensures out.Ok? ==> out.value == repo.order.status
      ensures Sound(cfg, c.rec) ==> Sound(cfg, repo.View()) && Persists(c.rec, repo.View())
    {
      DeliveryIsRun(cfg, c, t, hold, reply, m, clash, stale);
      if Sound(cfg, c.rec) { RunKeeps(cfg, c, WholeDelivery(cfg, c.rec, t, hold, reply, m, clash, stale)); }
      hide Sound, Persists, Run, DeliveryEvents, WholeDelivery, Flow.BeginDelivery, Flow.ApplyResult;
      var next :- BeginDelivery(hold);
      match next {
        case Stop =>
          return Ok(repo.order.status);
        case Start =>
          repo.Restore(later);
          out := ApplyResult(AnswerOf(reply), clash, stale);
        case Check(_) =>
          if reply.None? {
            return Raise(Rejected);
          }
          repo.Restore(later);
          out := ApplyResult(reply.value, clash, stale);
        case GiveUp(code) =>
          repo.Restore(later);
          out := ApplyResult(Flow.UncertainResult(code), clash, stale);
      }
    }

    /** A whole call of `reconcile_order` in the same way. */
    method ReconcileOrder(ghost c: Cell, ghost t: nat, ghost m: Meanwhile, reply: Option<Flow.PurchaseResult>, later: Rec,
                          clash: bool, stale: bool)
      returns (out: Result<OrderStatus>)
      requires c.rec == repo.View() && t !in c.tasks && Undirected(m, t)
      requires later == Run(cfg, c, ReconciliationEvents(cfg, c.rec, t, reply, m)).rec
      modifies repo
      ensures repo.View() == Run(cfg, c, WholeReconciliation(cfg, c.rec, t, reply, m, clash, stale)).rec
      ensures out.Ok? ==> out.value == repo.order.status
      ensures Sound(cfg, c.rec) ==> Sound(cfg, repo.View()) && Persists(c.rec, repo.View())
    {
      ReconciliationIsRun(cfg, c, t, reply, m, clash, stale);
      if Sound(cfg, c.rec) { RunKeeps(cfg, c, WholeReconciliation(cfg, c.rec, t, reply, m, clash, stale)); }
      hide Sound, Persists, Run, ReconciliationEvents, WholeReconciliation, Flow.BeginReconciliation, Flow.ApplyResult;
      var ask :- BeginReconciliation();
      if ask.None? {
        return Ok(repo.order.status);
      }
      if reply.None? {
        return Raise(Rejected);
      }
      repo.Restore(later);
      out := ApplyResult(reply.value, clash, stale);
    }

    method BeginReconciliation() returns (ask: Result<Option<string>>)
      modifies repo
      ensures
        var spec := Flow.BeginReconciliation(cfg, old(repo.View()));
        if spec.Ok? then ask == Ok(spec.value.1) && repo.View() == spec.value.0
        else ask == Raise(spec.error) && repo.View() == old(repo.View())
    {
      if repo.order.status.Completed? {
        return Ok(None);
      }
      if !cfg.queuedProvider || repo.attempt.None? || !Truthy(repo.attempt.value.requestId) {
        if !repo.order.status.ManualReview? {
          var _ :- repo.Transition(ManualReview, Some(ReconciliationDataMissing));
        }
        return Ok(None);
      }
      return Ok(repo.attempt.value.requestId);
    }

    method ApproveRetry() returns (out: Result<OrderStatus>)
      modifies repo
      ensures Ran(Flow.ApproveBalanceRetry(old(repo.View())), out, repo.View())
    {
      if repo.attempt.None? || Truthy(repo.attempt.value.requestId) {
        return Raise(Rejected);
      }
      repo.attempt := Some(repo.attempt.value.(status := Submitting, errorCode := Some(BalanceRetryApproved)));
      var _ :- repo.Transition(PurchaseProcessing, None);
      return Ok(repo.order.status);
    }

    method ApproveBalanceRetry() returns (out: Result<OrderStatus>)
      modifies repo
      ensures Settled(Flow.ApproveBalanceRetry(old(repo.View())), old(repo.View()), out, repo.View())
    {
      var saved := repo.View();
      out := ApproveRetry();
      if out.Raise? { repo.Restore(saved); }
    }

    // -------------------------------------------------------------- refunds

    method BeginRefund() returns (call: Result<Flow.RefundCall>)
      modifies repo
      ensures
        var spec := Flow.BeginRefund(old(repo.View()));
        if spec.Ok? then call == Ok(spec.value.1) && repo.View() == spec.value.0
        else call == Raise(spec.error) && repo.View() == old(repo.View())
    {
      if !Flow.IsYoo(repo.View()) {
        return Raise(Rejected);
      }
      if !repo.order.status.RefundRequired? {
        return Raise(Rejected);
      }
      if repo.attempt.Some? && Flow.BlocksRefund(repo.attempt.value.status) {
        return Raise(Rejected);
      }
      var payment := repo.payment.value;
      if !payment.status.PaySucceeded? || !payment.refundable {
        return Raise(Rejected);
      }
      var key := RefundKey(repo.order.info.number);
      if payment.refund.key.Some? {
        key := payment.refund.key.value;
      }
      repo.payment := Some(payment.(refund := payment.refund.(key := Some(key))));
      return Ok(Flow.RefundCall(payment.reference, payment.terms.expected, key));
    }

    method NoteRefund(refund: Flow.Refund, clash: bool) returns (out: Result<OrderStatus>)
      modifies repo
      ensures Ran(Flow.FinishRefund(old(repo.View()), refund, clash), out, repo.View())
    {
      if repo.payment.None? {
        return Raise(MissingRow);
      }
      if clash {
        return Raise(IntegrityError);
      }
      var columns := repo.payment.value.refund.(id := Some(refund.id));
      columns := columns.(status := Some(refund.status), amount := Some(refund.amount));
      repo.payment := Some(repo.payment.value.(refund := columns));
      if refund.status.RefundSucceeded? {
        out := Advance(RefundRequired, Refunded);
        return;
      }
      return Ok(repo.order.status);
    }

    method FinishRefund(refund: Flow.Refund, clash: bool) returns (out: Result<OrderStatus>)
      modifies repo
      ensures Settled(Flow.FinishRefund(old(repo.View()), refund, clash), old(repo.View()), out, repo.View())
    {
      var saved := repo.View();
      out := NoteRefund(refund, clash);
      if out.Raise? { repo.Restore(saved); }
    }

    /** A whole call of `request_yookassa_refund` in the same way. */
    method RequestRefund(ghost c: Cell, ghost t: nat, ghost m: Meanwhile, reply: Option<Flow.Refund>, later: Rec, clash: bool)
      returns (out: Result<OrderStatus>)
      requires c.rec == repo.View() && t !in c.tasks && Undirected(m, t)
      requires later == Run(cfg, c, RefundEvents(c.rec, t, m)).rec
      modifies repo
      ensures repo.View() == Run(cfg, c, WholeRefund(c.rec, t, reply, m, clash)).rec
      ensures out.Ok? ==> out.value == repo.order.status
      ensures Sound(cfg, c.rec) ==> Sound(cfg, repo.View()) && Persists(c.rec, repo.View())
    {
      RefundIsRun(cfg, c, t, reply, m, clash);
      if Sound(cfg, c.rec) { RunKeeps(cfg, c, WholeRefund(c.rec, t, reply, m, clash)); }
      hide Sound, Persists, Run, RefundEvents, WholeRefund, Flow.BeginRefund, Flow.FinishRefund, Flow.RefundMatches;
      var call :- BeginRefund();
      repo.Restore(later);
      if reply.None? || !Flow.RefundMatches(call.paymentId, call.amount, reply.value) {
        return Raise(Rejected);
      }
      out := FinishRefund(reply.value, clash);
    }

    method SyncRefund(refund: Flow.Refund) returns (out: Result<OrderStatus>)
      modifies repo
      ensures Settled(Flow.SyncRefund(old(repo.View()), refund), old(repo.View()), out, repo.View())
    {
      if repo.payment.None? || repo.payment.value.refund.id != Some(refund.id) {
        return Raise(Rejected);
      }
      var payment := repo.payment.value;
      if !Flow.RefundMatches(payment.reference, payment.terms.expected, refund) {
        return Raise(Rejected);
      }
      var columns := payment.refund.(status := Some(refund.status), amount := Some(refund.amount));
      repo.payment := Some(payment.(refund := columns));
      if refund.status.RefundSucceeded? && repo.order.status.RefundRequired? {
        var _ := repo.Transition(Refunded, None);
      }
      return Ok(repo.order.status);
    }

    method MarkRefunded() returns (out: Result<OrderStatus>)
      modifies repo
      ensures Settled(Flow.MarkRefunded(old(repo.View())), old(repo.View()), out, repo.View())
    {
      if !repo.order.status.RefundRequired? {
        return Raise(Rejected);
      }
      if Flow.IsYoo(repo.View()) && repo.payment.value.refund.status != Some(RefundSucceeded) {
        return Raise(Rejected);
      }
      var _ := repo.Transition(Refunded, None);
      return Ok(repo.order.status);
    }
  }
}
