/** What a payment comes to: what each report leaves in the rows, and that nothing is bought before the money is there. */
module PaymentOutcomes {
  import opened Domain
  import opened Ledger
  import opened OrderFlow
  import opened OrderInvariants
  import opened OrderPersistence
  import opened OrderSafety
  import opened Protocol
  import opened PurchaseSafety
  import opened RetrySafety
  import opened StatusEntries
  import opened PurchaseOutcomes
  import opened DeliveryDecisions
  import opened OrderTheorems

  // ---------------------------------------------------------------- reports

  function PaymentStatusOf(status: SnapshotStatus): PaymentStatus {
    match status
    case SnapPending => PayPending
    case SnapWaitingForCapture => PayWaitingForCapture
    case SnapSucceeded => PaySucceeded
    case SnapCanceled => PayCanceled
  }

  /** The snapshot does not take a success back and claims none that was not paid. */
  predicate IsAccepted(r: Rec, snap: Snapshot, clash: bool) {
    && IsOwn(r, snap) && !clash && (snap.status.SnapSucceeded? ==> snap.paid)
    && (r.payment.value.status.PaySucceeded? ==> snap.status.SnapSucceeded?)
  }

  /** Both rows say what an accepted snapshot says; any other leaves no trace. */
  predicate IsRecorded(r: Rec, snap: Snapshot, clash: bool, after: Rec) {
    && (!IsAccepted(r, snap, clash) ==> after == r)
    && (IsAccepted(r, snap, clash) ==>
          && after.order.paymentId == Some(snap.paymentId) && after.order.paymentStatus == Some(PaymentStatusOf(snap.status))
          && after.payment
             == Some(r.payment.value.(
                 reference := ProviderReference(snap.paymentId), refundable := snap.refundable,
                 confirmationUrl := if snap.confirmationUrl.Some? && snap.confirmationUrl.value != ""
                                    then snap.confirmationUrl else r.payment.value.confirmationUrl,
                 status := PaymentStatusOf(snap.status)))
          && after.attempt == r.attempt && after.order.info == r.order.info)
  }

  lemma OpenIsRecorded(r: Rec, snap: Snapshot, clash: bool)
    requires snap.status.SnapPending? || snap.status.SnapWaitingForCapture?
    ensures IsRecorded(r, snap, clash, Left(r, ApplySnapshot(r, snap, clash)))
  {
    hide StatusNotes;
  }

  lemma CanceledIsRecorded(r: Rec, snap: Snapshot, clash: bool)
    requires snap.status.SnapCanceled?
    ensures IsRecorded(r, snap, clash, Left(r, ApplySnapshot(r, snap, clash)))
  {
    hide StatusNotes;
  }

  lemma TimelySuccessIsRecorded(r: Rec, snap: Snapshot, clash: bool)
    requires snap.status.SnapSucceeded? && AwaitsMoney(r.order.status)
    ensures IsRecorded(r, snap, clash, Left(r, ApplySnapshot(r, snap, clash)))
  {
    hide StatusNotes;
  }

  lemma LaterSuccessIsRecorded(r: Rec, snap: Snapshot, clash: bool)
    requires snap.status.SnapSucceeded? && !AwaitsMoney(r.order.status)
    ensures IsRecorded(r, snap, clash, Left(r, ApplySnapshot(r, snap, clash)))
  {
    hide StatusNotes;
  }

  /** A snapshot is accepted exactly if it is about this payment and believable, and then both rows say what it says. */
  lemma SnapshotIsRecorded(r: Rec, snap: Snapshot, clash: bool)
    ensures IsRecorded(r, snap, clash, Left(r, ApplySnapshot(r, snap, clash)))
  {
    hide ApplySnapshot, IsRecorded;
    if snap.status.SnapSucceeded? && AwaitsMoney(r.order.status) { TimelySuccessIsRecorded(r, snap, clash); }
    else if snap.status.SnapSucceeded? { LaterSuccessIsRecorded(r, snap, clash); }
    else if snap.status.SnapCanceled? { CanceledIsRecorded(r, snap, clash); }
    else { OpenIsRecorded(r, snap, clash); }
  }

  /** The first transfer to the wallet is linked with its hash and amount, whatever is wrong with it otherwise. */
  lemma SightingIsRecorded(cfg: Settings, r: Rec, seen: Observation, now: int, stale: bool)
    requires WellFormed(cfg, r) && r.order.payType == Some(TonPay) && ToWallet(r.order, seen) && r.order.tonHash.None?
    requires r.order.status.WaitingForPayment? || r.order.status.PaymentExpired? || r.order.status.Cancelled?
    ensures
      var after := Left(r, RecordTonObservation(cfg, r, seen, now, false, stale));
      && after.order.tonHash == Some(seen.hash) && after.payment.Some?
      && after.payment.value.txHash == Some(seen.hash) && after.payment.value.received == Some(seen.amount)
      && after.payment.value.terms == r.payment.value.terms && after.order.invoice == r.order.invoice
  {
    RouteIsWallet(r.order, seen);
    hide StatusNotes, AttemptFits, ToWallet, OnRoute;
  }

  /** The invoice of a new TON order, on both rows. */
  lemma InvoiceIsRecorded(cfg: Settings, r: Rec, amount: int, comment: string, destination: string, expiresAt: int)
    requires WellFormed(cfg, r) && r.order.status.Created?
    ensures
      var after := Left(r, SetupTonPayment(r, amount, comment, destination, expiresAt));
      && after.order.invoice == Some(Invoice(amount, destination)) && after.order.expiresAt == Some(expiresAt)
      && after.order.payType == Some(TonPay) && after.order.paymentId == Some(comment) && after.order.info == r.order.info
      && after.payment.Some? && after.payment.value.reference == ProviderReference(comment)
      && after.payment.value.terms == PaymentTerms(Toncenter, None, amount, "TON", "TON", Some(destination))
  {
    hide StatusNotes;
  }

  /** Both rows say how the payment of an order ended that nothing was seen of, or not enough, before its time was up. */
  lemma ExpiryIsRecorded(r: Rec, now: int)
    ensures
      var after := Left(r, ExpireIfNeeded(r, now));
      if !AwaitsMoney(r.order.status) || !Due(r.order.expiresAt, now) then after == r
      else
        var ended := if r.order.status.WaitingForPayment? then PayExpired else PayManualReview;
        && after.order.paymentStatus == Some(ended) && after.attempt == r.attempt
        && after.payment == (if r.payment.Some? then Some(r.payment.value.(status := ended)) else None)
  {
    hide StatusNotes;
  }

  /** ... and how the test provider answered. */
  lemma TestAnswerIsRecorded(r: Rec, succeeded: bool)
    ensures
      var after := Left(r, EndTestConfirmation(r, succeeded));
      if !r.order.status.PaymentConfirming? then after == r
      else
        var ended := if succeeded then PaySucceeded else PayFailed;
        && after.order.status == (if succeeded then Paid else PaymentFailed)
        && after.order.paymentStatus == Some(ended) && after.attempt == r.attempt
        && after.payment == (if r.payment.Some? then Some(r.payment.value.(status := ended)) else None)
  {
    hide StatusNotes;
  }

  // ---------------------------------------------------------------- nothing is bought before it is paid

  lemma AttemptNeedsPaid(cfg: Settings, c: Cell, e: Event)
    requires WellFormed(cfg, c.rec) && c.rec.attempt.None? && Enabled(cfg, c, e)
    requires !(e.Transact? || IsPaymentStep(e) || e.StartRefund? || e.SendRefund? || e.EndRefund?)
    ensures Happen(cfg, c, e).rec.attempt.Some? ==> c.rec.order.status.Paid?
  {
    if e.StartDelivery? { DeliveryDecides(cfg, c.rec, e.hold); }
    hide BeginDelivery, StatusNotes, IsDefiniteFailure, DeliveryRunning;
  }

  lemma StepNeedsPaid(cfg: Settings, c: Cell, e: Event)
    requires Sound(cfg, c.rec) && c.rec.attempt.None? && Step(cfg, c, e).rec.attempt.Some?
    ensures c.rec.order.status.Paid?
  {
    if e.Transact? || IsPaymentStep(e) || e.StartRefund? || e.SendRefund? || e.EndRefund? {
      BesideStepSides(cfg, c, e);
      hide Happen, RefundsOnlyDue, WellFormed, Chronicle;
    } else {
      AttemptNeedsPaid(cfg, c, e);
      hide Happen, WellFormed, Chronicle;
    }
  }

  lemma FirstAttemptWasPaid(cfg: Settings, c: Cell, events: seq<Event>, e: Event)
    requires Sound(cfg, c.rec) && !c.rec.order.status.Paid?
    requires Run(cfg, c, events).rec.attempt.None? && Run(cfg, c, events + [e]).rec.attempt.Some?
    ensures exists i: nat :: EnteredAt(cfg, c, events, i, Paid)
  {
    RunKeeps(cfg, c, events);
    RunGrows(cfg, c, events, e);
    hide Run, Step, EnteredAt, WellFormed, Chronicle, Persists;
    StepNeedsPaid(cfg, Run(cfg, c, events), e);
    StatusWasEntered(cfg, c, events, Paid);
  }

  lemma {:induction false} AttemptWasPaid(cfg: Settings, c: Cell, events: seq<Event>)
    requires Sound(cfg, c.rec) && c.rec.attempt.None? && !c.rec.order.status.Paid?
    requires Run(cfg, c, events).rec.attempt.Some?
    ensures exists i: nat :: EnteredAt(cfg, c, events, i, Paid)
  {
    if events != [] {
      var earlier, e := events[..|events| - 1], events[|events| - 1];
      assert events == earlier + [e];
      hide Run, EnteredAt, Sound;
      if Run(cfg, c, earlier).rec.attempt.Some? { AttemptWasPaid(cfg, c, earlier); }
      else { FirstAttemptWasPaid(cfg, c, earlier, e); }
      var i: nat :| EnteredAt(cfg, c, earlier, i, Paid);
      EntriesStay(cfg, c, earlier, e, i, Paid);
    }
  }

  /**
   A purchase is sent only for an order that an event paid before: a captured payment of its whole price, the exact transfer
   seen for long enough, or in test mode the confirmation of the test provider.
   */
  lemma BoughtMeansPaid(cfg: Settings, info: OrderInfo, testPaymentId: string, events: seq<Event>)
    requires ValidRequest(cfg, info)
    ensures
      var start := Begin(cfg, info, testPaymentId);
      var c := Run(cfg, start, events);
      c.tally.posts > 0 || c.rec.order.status.Paid? ==>
        exists i: nat :: i < |events| && LeadsToPaid(cfg, Run(cfg, start, events[..i]), events[i])
  {
    var start := Begin(cfg, info, testPaymentId);
    var c := Run(cfg, start, events);
    BeginIsSound(cfg, info, testPaymentId);
    BeginIsOpen(cfg, info, testPaymentId);
    assert start.rec.attempt.None? by { NewOrderIsUnbought(cfg, info, testPaymentId); }
    RunKeepsPurchase(cfg, info, testPaymentId, events);
    hide Begin, Run, WellFormed, Chronicle, LeadsToPaid;
    if c.tally.posts > 0 {
      AttemptWasPaid(cfg, start, events);
    } else if c.rec.order.status.Paid? {
      StatusWasEntered(cfg, start, events, Paid);
    }
    if i: nat :| EnteredAt(cfg, start, events, i, Paid) {
      assert LeadsToPaid(cfg, Run(cfg, start, events[..i]), events[i]);
    }
  }

  lemma NewOrderIsUnbought(cfg: Settings, info: OrderInfo, testPaymentId: string)
    ensures Begin(cfg, info, testPaymentId).rec.attempt.None?
  {
    hide StatusNotes;
  }
}
