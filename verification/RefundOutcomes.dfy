/** What a refund comes to: an order is refunded exactly when the provider says that all of its money went back. */
module RefundOutcomes {
  import opened Domain
  import opened Ledger
  import opened OrderFlow
  import opened OrderInvariants
  import opened OrderPersistence
  import opened OrderSafety
  import opened Protocol
  import opened PaymentSafety
  import opened StatusEntries
  import opened PurchaseOutcomes
  import opened OrderTheorems
  import opened World

  // ---------------------------------------------------------------- one transaction

  /** A refund is prepared exactly for a captured payment of an order that is due one and cannot be delivered any more. */
  lemma RefundMayStart(cfg: Settings, r: Rec)
    requires WellFormed(cfg, r)
    ensures
      var res := BeginRefund(r);
      && (res.Ok? <==>
            && r.order.status.RefundRequired? && r.payment.Some? && r.payment.value.terms.provider.YooKassa?
            && r.payment.value.refundable && (r.attempt.Some? ==> r.attempt.value.status.AttemptFailed?))
      && (res.Ok? ==>
            && res.value.1 == RefundCall(r.payment.value.reference, r.order.info.rubAmount, RefundKey(r.order.info.number))
            && res.value.0.order == r.order && res.value.0.attempt == r.attempt && res.value.0.log == r.log
            && res.value.0.payment.Some? && res.value.0.payment.value.refund.key == Some(RefundKey(r.order.info.number)))
  {
  }

  /** The stored refund becomes what the provider reported; only a reported success moves the order, and only one that is due. */
  predicate Noted(r: Rec, refund: Refund, after: Rec) {
    && r.payment.Some? && after.attempt == r.attempt && after.order.info == r.order.info
    && after.payment
       == Some(r.payment.value.(refund := RefundColumns(Some(refund.id), Some(refund.status), r.payment.value.refund.key,
                                                        Some(refund.amount))))
    && after.order.status
       == if refund.status.RefundSucceeded? && r.order.status.RefundRequired? then Refunded else r.order.status
  }

  lemma AnswerIsNoted(cfg: Settings, c: Cell, t: nat, refund: Refund, clash: bool)
    requires t in c.tasks && c.tasks[t].RefundSent? && c.rec.payment.Some?
    ensures
      var after, call := Step(cfg, c, EndRefund(t, refund, clash)).rec, c.tasks[t].call;
      var accepted := && !clash && refund.currency == "RUB" && refund.amount == call.amount
                      && ProviderReference(refund.paymentId) == call.paymentId;
      if accepted then Noted(c.rec, refund, after) else after == c.rec
  {
    hide StatusNotes;
  }

  lemma NoticeIsNoted(cfg: Settings, c: Cell, refund: Refund)
    ensures
      var r, after := c.rec, Step(cfg, c, Transact(SyncRefundNotice(refund))).rec;
      var accepted := && r.payment.Some? && r.payment.value.refund.id == Some(refund.id)
                      && refund.currency == "RUB" && refund.amount == r.payment.value.terms.expected
                      && ProviderReference(refund.paymentId) == r.payment.value.reference;
      if accepted then Noted(r, refund, after) else after == r
  {
    hide StatusNotes;
  }

  // ---------------------------------------------------------------- refunded orders

  /** The event reports that the whole price of the order went back from this payment. */
  predicate Tells(e: Event, r: Rec) {
    && ((e.EndRefund? && TellsOf(e.refund, r)) || (e.Transact? && e.op.SyncRefundNotice? && TellsOf(e.op.refund, r)))
  }

  predicate TellsOf(refund: Refund, r: Rec) {
    && refund.status.RefundSucceeded? && r.payment.Some? && r.payment.value.reference == ProviderReference(refund.paymentId)
    && refund.amount == r.order.info.rubAmount && refund.currency == "RUB"
  }

  ghost predicate WasTold(events: seq<Event>, r: Rec) {
    exists e :: e in events && Tells(e, r)
  }

  /** Stored refunds and refunded orders of YooKassa rest on a report, refunded orders of others on a confirmation. */
  ghost predicate RefundTold(r: Rec, events: seq<Event>) {
    && (IsYoo(r) && (r.order.status.Refunded? || RefundStateOf(r) == Some(RefundSucceeded)) ==> WasTold(events, r))
    && (!IsYoo(r) ==> RefundIdOf(r).None?)
    && (!IsYoo(r) && r.order.status.Refunded? ==> Transact(ConfirmRefund) in events)
  }

  lemma TellsPersists(e: Event, r: Rec, after: Rec)
    requires Persists(r, after) && Tells(e, r)
    ensures Tells(e, after)
  {
  }

  lemma TellingPersists(events: seq<Event>, e: Event, r: Rec, after: Rec)
    requires Persists(r, after) && WasTold(events, r)
    ensures WasTold(events + [e], after)
  {
    var told :| told in events && Tells(told, r);
    assert told in events + [e] && Tells(told, after);
  }

  lemma ReportTells(cfg: Settings, c: Cell, e: Event)
    requires WellFormed(cfg, c.rec) && Billed(c) && IsYoo(c.rec)
    requires NewRefundState(c, e) == Some(RefundSucceeded)
    ensures Tells(e, c.rec)
  {
    if e.EndRefund? { assert CallFits(c.rec, c.tasks[e.task]); }
  }

  lemma EntryTells(cfg: Settings, c: Cell, e: Event)
    requires WellFormed(cfg, c.rec) && Billed(c) && LeadsToRefunded(c, e)
    ensures IsYoo(c.rec) ==> Tells(e, c.rec) || RefundStateOf(c.rec) == Some(RefundSucceeded)
    ensures !IsYoo(c.rec) && RefundIdOf(c.rec).None? ==> e == Transact(ConfirmRefund)
  {
    if e.EndRefund? { assert CallFits(c.rec, c.tasks[e.task]); }
  }

  lemma OnlyYooHasRefunds(cfg: Settings, c: Cell, e: Event)
    requires Billed(c) && (!IsYoo(c.rec) ==> RefundIdOf(c.rec).None?)
    requires Persists(c.rec, Step(cfg, c, e).rec) && ColumnsGrow(c, e, Step(cfg, c, e).rec)
    ensures !IsYoo(Step(cfg, c, e).rec) ==> RefundIdOf(Step(cfg, c, e).rec).None?
  {
    if Enabled(cfg, c, e) {
      if e.EndRefund? { assert CallFits(c.rec, c.tasks[e.task]); }
    }
    hide Happen, HashOf, ReferenceOf, RequestOf, StarsTxOf, RefundStateOf, NewHash, NewReference, NewRequest, NewStarsTx;
  }

  /** A stored success was stored before, or the event brings it to an order that has a YooKassa payment already. */
  lemma StoredIsBrought(c: Cell, e: Event, after: Rec)
    requires Billed(c) && Persists(c.rec, after) && ColumnsGrow(c, e, after)
    requires IsYoo(after) && RefundStateOf(after) == Some(RefundSucceeded)
    ensures IsYoo(c.rec)
    ensures RefundStateOf(c.rec) == Some(RefundSucceeded) || NewRefundState(c, e) == Some(RefundSucceeded)
  {
    if c.rec.payment.None? && e.EndRefund? && e.task in c.tasks { CallsAreOfYoo(c, e.task); }
  }

  lemma CallsAreOfYoo(c: Cell, t: nat)
    requires Billed(c) && t in c.tasks
    ensures c.tasks[t].RefundSent? ==> IsYoo(c.rec)
  {
    assert CallFits(c.rec, c.tasks[t]);
  }

  lemma StoredWasTold(c: Cell, events: seq<Event>, e: Event, after: Rec, cfg: Settings)
    requires WellFormed(cfg, c.rec) && Billed(c) && RefundTold(c.rec, events)
    requires Persists(c.rec, after) && ColumnsGrow(c, e, after)
    requires IsYoo(after) && RefundStateOf(after) == Some(RefundSucceeded)
    ensures WasTold(events + [e], after)
  {
    StoredIsBrought(c, e, after);
    hide ColumnsGrow, WellFormed, Billed, Persists, Tells, NewRefundState, RefundStateOf, RefundIdOf, IsYoo;
    if RefundStateOf(c.rec) == Some(RefundSucceeded) {
      TellingPersists(events, e, c.rec, after);
    } else {
      ReportTells(cfg, c, e);
      TellsPersists(e, c.rec, after);
      assert e in events + [e];
    }
  }

  lemma RefundedWasTold(cfg: Settings, c: Cell, events: seq<Event>, e: Event, after: Rec)
    requires WellFormed(cfg, c.rec) && Billed(c) && RefundTold(c.rec, events) && Persists(c.rec, after)
    requires c.rec.order.status.Refunded? || LeadsToRefunded(c, e)
    ensures IsYoo(after) ==> WasTold(events + [e], after)
    ensures !IsYoo(after) ==> Transact(ConfirmRefund) in events + [e]
  {
    assert IsYoo(after) <==> IsYoo(c.rec) by { RefundedHasPayment(cfg, c, e); }
    if !c.rec.order.status.Refunded? { EntryTells(cfg, c, e); }
    hide WellFormed, Billed, LeadsToRefunded, Persists, Tells, IsYoo, RefundIdOf, RefundStateOf;
    if IsYoo(c.rec) {
      if Tells(e, c.rec) {
        TellsPersists(e, c.rec, after);
        assert e in events + [e];
      } else {
        TellingPersists(events, e, c.rec, after);
      }
    }
  }

  lemma RefundedHasPayment(cfg: Settings, c: Cell, e: Event)
    requires WellFormed(cfg, c.rec)
    requires c.rec.order.status.Refunded? || LeadsToRefunded(c, e)
    ensures c.rec.payment.Some?
  {
  }

  lemma NewlyRefunded(cfg: Settings, c: Cell, e: Event)
    requires WellFormed(cfg, c.rec) && Step(cfg, c, e).rec.order.status.Refunded?
    ensures c.rec.order.status.Refunded? || LeadsToRefunded(c, e)
  {
    hide Step, WellFormed, Objection, LeadsTo, LeadsToRefunded;
    StepEnters(cfg, c, e, Refunded);
    RefundedIsLed(cfg, c, e);
  }

  lemma RefundedIsLed(cfg: Settings, c: Cell, e: Event)
    ensures LeadsTo(cfg, c, e, Refunded) <==> LeadsToRefunded(c, e)
  {
    hide LeadsToRefunded;
  }

  lemma StepKeepsTold(cfg: Settings, c: Cell, events: seq<Event>, e: Event)
    requires Sound(cfg, c.rec) && Billed(c) && RefundTold(c.rec, events)
    ensures RefundTold(Step(cfg, c, e).rec, events + [e])
  {
    hide Step, WellFormed, Chronicle, Persists, Billed, ColumnsGrow, LeadsToRefunded, IsYoo, RefundIdOf, RefundStateOf;
    var after := Step(cfg, c, e).rec;
    StepKeeps(cfg, c, e);
    StepColumnsGrow(cfg, c, e);
    OnlyYooHasRefunds(cfg, c, e);
    if after.order.status.Refunded? {
      NewlyRefunded(cfg, c, e);
      RefundedWasTold(cfg, c, events, e, after);
    }
    if IsYoo(after) && RefundStateOf(after) == Some(RefundSucceeded) { StoredWasTold(c, events, e, after, cfg); }
  }

  lemma BeginTold(cfg: Settings, info: OrderInfo, testPaymentId: string)
    ensures RefundTold(Begin(cfg, info, testPaymentId).rec, [])
  {
    hide StatusNotes;
  }

  lemma {:induction false} RunKeepsTold(cfg: Settings, info: OrderInfo, testPaymentId: string, events: seq<Event>)
    requires ValidRequest(cfg, info)
    ensures RefundTold(Run(cfg, Begin(cfg, info, testPaymentId), events).rec, events)
  {
    var start := Begin(cfg, info, testPaymentId);
    if events == [] {
      BeginTold(cfg, info, testPaymentId);
    } else {
      var earlier, last := events[..|events| - 1], events[|events| - 1];
      RunKeepsTold(cfg, info, testPaymentId, earlier);
      BeginIsSound(cfg, info, testPaymentId);
      RunKeeps(cfg, start, earlier);
      RunKeepsPayments(cfg, info, testPaymentId, earlier);
      hide Begin, Step, RefundTold, Billed, Sound;
      StepKeepsTold(cfg, Run(cfg, start, earlier), earlier, last);
      assert earlier + [last] == events;
    }
  }

  /**
   A YooKassa order is refunded only if YooKassa reported, in answer to the refund or in a notice, that the whole price
   of the order went back from its payment; any other order only if an administrator confirmed it.
   */
  lemma RefundedMeansReported(cfg: Settings, info: OrderInfo, testPaymentId: string, events: seq<Event>)
    requires ValidRequest(cfg, info)
    ensures
      var r := Reach(cfg, info, testPaymentId, events).rec;
      r.order.status.Refunded? ==>
        if r.order.payType == Some(YooPay)
        then exists e :: e in events && Tells(e, r)
        else Transact(ConfirmRefund) in events
  {
    ReachIsSound(cfg, info, testPaymentId, events);
    RunKeepsTold(cfg, info, testPaymentId, events);
    hide Run, Begin, Chronicle, Tells;
    var r := Reach(cfg, info, testPaymentId, events).rec;
    if r.order.status.Refunded? { assert IsYoo(r) <==> r.order.payType == Some(YooPay); }
  }
}
