/** What a call decides to do next: when it buys, when it asks, and when it gives up. */
module DeliveryDecisions {
  import opened Domain
  import opened Ledger
  import opened OrderFlow
  import opened OrderInvariants
  import opened OrderPersistence
  import opened OrderSafety
  import opened Protocol
  import opened PurchaseSafety
  import opened RetrySafety
  import opened StatusEntries
  import opened PurchaseOutcomes

  /** The attempt of an approved retry that nobody has acted on. */
  predicate AwaitsRetry(r: Rec) {
    && r.attempt.Some? && r.attempt.value.status.Submitting? && r.attempt.value.requestId.None?
    && r.attempt.value.errorCode == Some(BalanceRetryApproved)
  }

  /** The request of the order that the provider can be asked about. */
  function Pending(r: Rec): Option<string> {
    if r.attempt.Some? then r.attempt.value.requestId else None
  }

  /**
   A delivery buys exactly for a paid order that nothing holds back and for an approved retry; it asks exactly about a
   stored request; it gives up on an order that it can neither ask about nor buy again; it does nothing otherwise.
   */
  lemma DeliveryDecides(cfg: Settings, r: Rec, hold: bool)
    requires WellFormed(cfg, r)
    ensures BeginDelivery(cfg, r, hold).Ok?
    ensures
      var (after, next) := BeginDelivery(cfg, r, hold).value;
      var opens := r.order.status.Paid? && !hold && !MissesUsername(cfg, r.order.info);
      && (next.Start? <==> opens || (Buying(r.order.status) && AwaitsRetry(r)))
      && (next.Check? <==> Buying(r.order.status) && Pending(r).Some? && cfg.queuedProvider)
      && (next.Check? ==> Pending(r) == Some(next.requestId))
      && (next.GiveUp? <==> Buying(r.order.status) && !AwaitsRetry(r) && (Pending(r).None? || !cfg.queuedProvider))
      && (next.GiveUp? ==>
            next.code == if Pending(r).Some? then ProviderReconciliationUnavailable else PurchaseResponseNotPersisted)
      && after.attempt == (if opens then Some(Attempt(Submitting, None, None, None)) else r.attempt)
      && SameOutside(r, after)
  {
    hide StatusNotes;
  }

  /** An administrator's reconciliation asks exactly about a stored request of an order that is not completed. */
  lemma ReconciliationDecides(cfg: Settings, r: Rec)
    requires WellFormed(cfg, r) && BeginReconciliation(cfg, r).Ok?
    ensures
      var (after, ask) := BeginReconciliation(cfg, r).value;
      && ask == (if !r.order.status.Completed? && cfg.queuedProvider then Pending(r) else None)
      && after.attempt == r.attempt && SameOutside(r, after) && (ask.Some? ==> after == r)
  {
    hide StatusNotes;
  }

  /** Starting a YooKassa payment hands out the stored link, or asks for one payment of the order's price. */
  lemma ChargeDecides(cfg: Settings, r: Rec, now: int, expiresAt: int)
    requires WellFormed(cfg, r)
    ensures
      var res := InitiateYoo(r, now, expiresAt);
      var url := if r.payment.Some? then r.payment.value.confirmationUrl else None;
      && (res.Ok? <==>
            && (r.order.status.Created? || r.order.status.WaitingForPayment?) && !Due(r.order.expiresAt, now)
            && (r.payment.Some? ==> r.payment.value.terms.provider.YooKassa?))
      && (res.Ok? ==>
            if Truthy(url) then res.value == (r, Reuse(url.value))
            else
              && res.value.1 == Charge(ChargeKey(r.order.info.number), r.order.info.rubAmount)
              && res.value.0.order.expiresAt == Some(expiresAt) && res.value.0.attempt == r.attempt
              && res.value.0.payment.Some?
              && (r.payment.Some? ==> res.value.0.payment == r.payment)
              && (r.payment.None? ==> res.value.0.payment.value.terms.expected == r.order.info.rubAmount))
  {
    hide StatusNotes;
  }

  // ---------------------------------------------------------------- a paused shop

  /** The order was never bought, and nobody is about to buy it. */
  ghost predicate Unbought(c: Cell) {
    c.rec.attempt.None? && forall t :: t in c.tasks ==> !IsPurchase(c.tasks[t])
  }

  predicate Paused(e: Event) {
    e.StartDelivery? ==> e.hold
  }

  lemma NobodyBuys(cfg: Settings, c: Cell, e: Event)
    requires WellFormed(cfg, c.rec) && Unbought(c) && Paused(e) && Enabled(cfg, c, e)
    requires !(e.Transact? || IsPaymentStep(e) || e.StartRefund? || e.SendRefund? || e.EndRefund?)
    ensures Unbought(Happen(cfg, c, e)) && Happen(cfg, c, e).tally.posts == c.tally.posts
  {
    if e.StartDelivery? { DeliveryDecides(cfg, c.rec, true); }
    hide BeginDelivery, StatusNotes, IsDefiniteFailure, DeliveryRunning, ApplyResult;
  }

  lemma StepBuysNothing(cfg: Settings, c: Cell, e: Event)
    requires Sound(cfg, c.rec) && Unbought(c) && Paused(e)
    ensures Unbought(Step(cfg, c, e)) && Step(cfg, c, e).tally.posts == c.tally.posts
  {
    if Enabled(cfg, c, e) {
      if e.Transact? || IsPaymentStep(e) || e.StartRefund? || e.SendRefund? || e.EndRefund? {
        BesideStepSides(cfg, c, e);
        hide Happen, RefundsOnlyDue, WellFormed, Chronicle;
      } else {
        NobodyBuys(cfg, c, e);
        hide Happen, WellFormed, Chronicle;
      }
    }
  }

  /** While purchases are paused, no purchase is sent for an order that had none, whatever the workers do. */
  lemma {:induction false} PausedShopBuysNothing(cfg: Settings, c: Cell, events: seq<Event>)
    requires Sound(cfg, c.rec) && Unbought(c) && forall e :: e in events ==> Paused(e)
    ensures Unbought(Run(cfg, c, events)) && Run(cfg, c, events).tally.posts == c.tally.posts
  {
    if events != [] {
      var earlier := events[..|events| - 1];
      PausedShopBuysNothing(cfg, c, earlier);
      RunKeeps(cfg, c, earlier);
      StepBuysNothing(cfg, Run(cfg, c, earlier), events[|events| - 1]);
      hide Step, Unbought, Sound;
    }
  }
}
