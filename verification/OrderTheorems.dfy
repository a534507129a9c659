/** What is true of an order in every state that any run can reach. */
module OrderTheorems {
  import opened Domain
  import opened Ledger
  import opened OrderFlow
  import opened OrderInvariants
  import opened OrderPersistence
  import opened OrderSafety
  import opened Protocol
  import opened PurchaseSafety
  import opened PaymentSafety

  ghost function Reach(cfg: Settings, info: OrderInfo, testPaymentId: string, events: seq<Event>): Cell {
    Run(cfg, Begin(cfg, info, testPaymentId), events)
  }

  lemma ReachIsSound(cfg: Settings, info: OrderInfo, testPaymentId: string, events: seq<Event>)
    requires ValidRequest(cfg, info)
    ensures Sound(cfg, Reach(cfg, info, testPaymentId, events).rec)
    ensures Reach(cfg, info, testPaymentId, events).rec.order.info == info
  {
    BeginIsSound(cfg, info, testPaymentId);
    RunKeeps(cfg, Begin(cfg, info, testPaymentId), events);
  }

  /** Whatever happens later, nothing that `Persists` lists is taken back. */
  lemma LaterPersists(cfg: Settings, info: OrderInfo, testPaymentId: string, events: seq<Event>, more: seq<Event>)
    requires ValidRequest(cfg, info)
    ensures Persists(Reach(cfg, info, testPaymentId, events).rec, Reach(cfg, info, testPaymentId, events + more).rec)
  {
    ReachIsSound(cfg, info, testPaymentId, events);
    RunSplits(cfg, Begin(cfg, info, testPaymentId), events, more);
    RunKeeps(cfg, Reach(cfg, info, testPaymentId, events), more);
  }

  /**
   A confirmed payment stays confirmed and visible, a purchase is never sent without one, and unless the
   provider reported success after a cancellation the order is neither unpaid nor closed as unpaid.
   */
  lemma ConfirmedForGood(cfg: Settings, info: OrderInfo, testPaymentId: string, events: seq<Event>, more: seq<Event>)
    requires ValidRequest(cfg, info)
    ensures
      var now, later := Reach(cfg, info, testPaymentId, events), Reach(cfg, info, testPaymentId, events + more);
      && (Confirmed(now.rec) ==>
            && Confirmed(later.rec) && later.rec.order.paymentStatus == Some(PaySucceeded)
            && !Unpaid(later.rec.order.status)
            && (!later.tally.flipped ==> !ClosedUnpaid(later.rec.order.status)))
      && (now.tally.posts > 0 ==> Confirmed(now.rec))
  {
    LaterPersists(cfg, info, testPaymentId, events, more);
    ReachIsSound(cfg, info, testPaymentId, events);
    ReachIsSound(cfg, info, testPaymentId, events + more);
    RunKeepsPayments(cfg, info, testPaymentId, events + more);
    RunKeepsPurchase(cfg, info, testPaymentId, events);
    hide Reach, Run, Begin;
  }

  lemma ChargeOpens(cfg: Settings, info: OrderInfo, testPaymentId: string, now: int)
    requires ValidRequest(cfg, info) && !cfg.testMode
    ensures
      var c := Step(cfg, Begin(cfg, info, testPaymentId), StartCharge(0, now, now));
      && c.rec.order.status.WaitingForPayment? && c.rec.order.info == info && IsYoo(c.rec)
      && c.rec.payment.value.reference.PendingReference? && !c.rec.payment.value.status.PaySucceeded?
      && c.tasks == map[0 := ChargePermit(ChargeKey(info.number), info.rubAmount)] && c.tally.charges == []
  {
  }

  lemma ChargeIsSent(cfg: Settings, c: Cell)
    requires 0 in c.tasks && c.tasks[0].ChargePermit?
    ensures
      var after := Step(cfg, c, SendCharge(0));
      after.rec == c.rec && after.tally.charges == c.tally.charges + [ChargePost(c.tasks[0].key, c.tasks[0].amount)]
  {
  }

  lemma CancellationFails(cfg: Settings, c: Cell, info: OrderInfo, paymentId: string)
    requires c.rec.order.status.WaitingForPayment? && c.rec.order.info == info && IsYoo(c.rec)
    requires c.rec.payment.value.reference.PendingReference? && !c.rec.payment.value.status.PaySucceeded?
    ensures
      var after := Step(cfg, c, Transact(Snap(Report(info, paymentId, SnapCanceled), false)));
      && after.rec.order.status.PaymentFailed? && after.rec.order.info == info && IsYoo(after.rec)
      && after.rec.payment.value.reference == ProviderReference(paymentId) && after.tally.cancelSeen
  {
  }

  lemma SuccessConfirmsFailed(cfg: Settings, c: Cell, info: OrderInfo, paymentId: string)
    requires c.rec.order.status.PaymentFailed? && c.rec.order.info == info && IsYoo(c.rec)
    requires c.rec.payment.value.reference == ProviderReference(paymentId) && c.tally.cancelSeen
    ensures
      var after := Step(cfg, c, Transact(Snap(Report(info, paymentId, SnapSucceeded), false)));
      Confirmed(after.rec) && after.rec.order.status.PaymentFailed? && after.tally.flipped
  {
  }

  /** A provider that reports success after a cancellation leaves a confirmed payment on a failed order. */
  lemma CancelThenSuccess(cfg: Settings, info: OrderInfo, testPaymentId: string, paymentId: string, now: int)
    requires ValidRequest(cfg, info) && !cfg.testMode
    ensures
      var events := [StartCharge(0, now, now), SendCharge(0)]
        + [Transact(Snap(Report(info, paymentId, SnapCanceled), false)), Transact(Snap(Report(info, paymentId, SnapSucceeded), false))];
      var c := Reach(cfg, info, testPaymentId, events);
      Confirmed(c.rec) && c.rec.order.status.PaymentFailed? && c.tally.flipped
  {
    var start, charge := Begin(cfg, info, testPaymentId), StartCharge(0, now, now);
    var canceled := Transact(Snap(Report(info, paymentId, SnapCanceled), false));
    var succeeded := Transact(Snap(Report(info, paymentId, SnapSucceeded), false));
    RunOfTwo(cfg, start, charge, SendCharge(0));
    RunSplits(cfg, start, [charge, SendCharge(0)], [canceled, succeeded]);
    RunOfTwo(cfg, Run(cfg, start, [charge, SendCharge(0)]), canceled, succeeded);
    ChargeOpens(cfg, info, testPaymentId, now);
    hide Begin, Run, Step;
    ChargeIsSent(cfg, Step(cfg, start, charge));
    var sent := Step(cfg, Step(cfg, start, charge), SendCharge(0));
    CancellationFails(cfg, sent, info, paymentId);
    SuccessConfirmsFailed(cfg, Step(cfg, sent, canceled), info, paymentId);
  }

  /** In every paid order the last gate objects to nothing but a missing username, and to that exactly when it is missing. */
  lemma GateAgrees(cfg: Settings, info: OrderInfo, testPaymentId: string, events: seq<Event>)
    requires ValidRequest(cfg, info)
    ensures
      var r := Reach(cfg, info, testPaymentId, events).rec;
      var username := if info.kind.SelfOrder? then info.buyerUsername else info.recipientUsername;
      r.order.status.Paid? ==>
        && (PurchaseValidationError(cfg, r).Some? <==> cfg.fragmentMode && username == "")
        && (PurchaseValidationError(cfg, r).Some? ==> PurchaseValidationError(cfg, r).value == RecipientUsernameMissing)
        && (PurchaseValidationError(cfg, r).Some? ==> !IsPaymentCode(PurchaseValidationError(cfg, r).value))
  {
    ReachIsSound(cfg, info, testPaymentId, events);
    hide Reach, Chronicle;
  }

  /** An order to which a TON transaction is linked is never treated as unpaid. */
  lemma LinkedTransactionIsKept(cfg: Settings, info: OrderInfo, testPaymentId: string, events: seq<Event>, more: seq<Event>)
    requires ValidRequest(cfg, info)
    ensures
      var now, later := Reach(cfg, info, testPaymentId, events).rec, Reach(cfg, info, testPaymentId, events + more).rec;
      now.order.tonHash.Some? ==>
        && later.order.tonHash == now.order.tonHash
        && later.payment.Some? && later.payment.value.txHash == now.order.tonHash
        && !later.order.status.Created? && !later.order.status.WaitingForPayment?
        && !ClosedUnpaid(later.order.status)
  {
    LaterPersists(cfg, info, testPaymentId, events, more);
    ReachIsSound(cfg, info, testPaymentId, events);
    ReachIsSound(cfg, info, testPaymentId, events + more);
    hide Reach, Chronicle;
  }

  /** The status tells what the purchase attempt looks like. */
  lemma StatusTellsAttempt(cfg: Settings, info: OrderInfo, testPaymentId: string, events: seq<Event>)
    requires ValidRequest(cfg, info)
    ensures
      var r := Reach(cfg, info, testPaymentId, events).rec;
      && (PastPurchase(r.order.status) ==> r.attempt.Some?)
      && (r.attempt.Some? ==> PastPurchase(r.order.status) || r.order.status.ManualReview?)
      && (r.order.status.Completed? ==>
            r.attempt.value.status.AttemptSucceeded? && Truthy(r.attempt.value.txId)
            && r.order.telegramTx == r.attempt.value.txId)
      && (r.attempt.Some? && r.attempt.value.status.AttemptSucceeded? ==> r.order.status.Completed?)
      && (r.order.status.StarsSending? ==> Truthy(r.attempt.value.requestId) && r.order.requestId == r.attempt.value.requestId)
  {
    ReachIsSound(cfg, info, testPaymentId, events);
    hide Reach, Chronicle;
  }

  /**
   Completed, refunded and failed orders never move again, a completed attempt is never rewritten, and an order
   that reached manual review without an attempt stays there without one.
   */
  lemma EndsAreFinal(cfg: Settings, info: OrderInfo, testPaymentId: string, events: seq<Event>, more: seq<Event>)
    requires ValidRequest(cfg, info)
    ensures
      var now, later := Reach(cfg, info, testPaymentId, events).rec, Reach(cfg, info, testPaymentId, events + more).rec;
      && (now.order.status.Completed? || now.order.status.Refunded? || now.order.status.PaymentFailed? ==>
            later.order.status == now.order.status)
      && (now.order.status.Completed? ==> later.attempt == now.attempt)
      && (now.order.status.ManualReview? && now.attempt.None? ==> later.order.status.ManualReview? && later.attempt.None?)
  {
    LaterPersists(cfg, info, testPaymentId, events, more);
    hide Reach;
  }

  /**
   The audit log is one unbroken path of allowed edges from CREATED to the current status, and the outbox without
   resent rows is exactly what entering the statuses on that path announces, in order.
   */
  lemma AuditReplaysOrder(cfg: Settings, info: OrderInfo, testPaymentId: string, events: seq<Event>)
    requires ValidRequest(cfg, info)
    ensures
      var r := Reach(cfg, info, testPaymentId, events).rec;
      PathFrom(Created, r.log, r.order.status) && WithoutResent(r.notes) == Announced(r.log, info.stars)
  {
    ReachIsSound(cfg, info, testPaymentId, events);
    hide Reach, WellFormed, PathFrom, WithoutResent, Announced;
  }

  /** The statuses announced to an audience, resent rows left out, in the order of the outbox. */
  ghost function AnnouncedTo(notes: seq<Note>, audience: Audience): seq<OrderStatus> {
    if notes == [] then []
    else
      var last := notes[|notes| - 1];
      AnnouncedTo(notes[..|notes| - 1], audience)
      + (if last.audience == audience && !last.resent then [last.status] else [])
  }

  /** The entries into some statuses, in the order of the audit log. */
  ghost function EntriesInto(log: seq<Edge>, statuses: set<OrderStatus>): seq<OrderStatus> {
    if log == [] then []
    else
      var last := log[|log| - 1].target;
      EntriesInto(log[..|log| - 1], statuses) + (if last in statuses then [last] else [])
  }

  const ForBuyers: set<OrderStatus> := {
    Paid, Completed, PaymentExpired, PaymentFailed, RefundRequired, Refunded, Cancelled, ManualReview, WaitingForMerchantBalance
  }

  const ForAdmins: set<OrderStatus> := {Paid, ManualReview, RefundRequired, WaitingForMerchantBalance}

  ghost function StatusesFor(audience: Audience, stars: int): set<OrderStatus> {
    if audience.User? then ForBuyers else if stars >= 1000 then ForAdmins + {Completed} else ForAdmins
  }

  lemma {:induction false} AnnouncementsJoin(notes: seq<Note>, more: seq<Note>, audience: Audience)
    ensures AnnouncedTo(notes + more, audience) == AnnouncedTo(notes, audience) + AnnouncedTo(more, audience)
  {
    if more == [] {
      assert notes + more == notes;
    } else {
      var init := more[..|more| - 1];
      AnnouncementsJoin(notes, init, audience);
      assert (notes + more)[..|notes + more| - 1] == notes + init;
    }
  }

  lemma {:induction false} ResentAreLeftOut(notes: seq<Note>, audience: Audience)
    ensures AnnouncedTo(WithoutResent(notes), audience) == AnnouncedTo(notes, audience)
  {
    if notes != [] {
      var init, last := notes[..|notes| - 1], notes[|notes| - 1];
      ResentAreLeftOut(init, audience);
      AnnouncementsJoin(WithoutResent(init), if last.resent then [] else [last], audience);
      assert !last.resent ==> [last][..0] == [];
    }
  }

  lemma EntryIsAnnounced(status: OrderStatus, stars: int, audience: Audience)
    ensures AnnouncedTo(StatusNotes(status, stars), audience)
            == if status in StatusesFor(audience, stars) then [status] else []
  {
    var user := if AnnouncedToUser(status) then [Note(status, User, false)] else [];
    var admin := if AnnouncedToAdmins(status, stars) then [Note(status, Admin, false)] else [];
    AnnouncementsJoin(user, admin, audience);
    assert user != [] ==> user[..0] == [];
    assert admin != [] ==> admin[..0] == [];
  }

  lemma {:induction false} EntriesAreAnnounced(log: seq<Edge>, stars: int, audience: Audience)
    ensures AnnouncedTo(Announced(log, stars), audience) == EntriesInto(log, StatusesFor(audience, stars))
  {
    if log != [] {
      EntriesAreAnnounced(log[..|log| - 1], stars, audience);
      AnnouncementsJoin(Announced(log[..|log| - 1], stars), StatusNotes(log[|log| - 1].target, stars), audience);
      EntryIsAnnounced(log[|log| - 1].target, stars, audience);
      hide StatusNotes, StatusesFor;
    }
  }

  /**
   Buyers are told of exactly the nine statuses that concern them and administrators of exactly the four that need
   them, and of completions of 1000 Stars or more: once for each entry, in the order in which they were entered.
   */
  lemma OutboxTellsStatuses(cfg: Settings, info: OrderInfo, testPaymentId: string, events: seq<Event>, audience: Audience)
    requires ValidRequest(cfg, info)
    ensures
      var r := Reach(cfg, info, testPaymentId, events).rec;
      AnnouncedTo(r.notes, audience) == EntriesInto(r.log, StatusesFor(audience, info.stars))
  {
    AuditReplaysOrder(cfg, info, testPaymentId, events);
    var r := Reach(cfg, info, testPaymentId, events).rec;
    ResentAreLeftOut(r.notes, audience);
    EntriesAreAnnounced(r.log, info.stars, audience);
  }

  // ---------------------------------------------------------------- provider calls

  /** A provider that honours idempotency keys executes one call per distinct key. */
  ghost function ExecutedCharges(charges: seq<ChargePost>): set<Uuid> {
    set i | 0 <= i < |charges| :: charges[i].key
  }

  ghost function ExecutedRefunds(refunds: seq<RefundCall>): set<Uuid> {
    set i | 0 <= i < |refunds| :: refunds[i].key
  }

  lemma AtMostOneElement<T>(s: set<T>, x: T)
    requires forall y :: y in s ==> y == x
    ensures |s| <= 1
  {
    if s != {} { assert s == {x}; }
  }

  lemma RefundIsFull(cfg: Settings, r: Rec, call: RefundCall)
    requires WellFormed(cfg, r) && IsTheRefund(r, call)
    ensures call == RefundCall(r.payment.value.reference, r.order.info.rubAmount, RefundKey(r.order.info.number))
  {
  }

  /**
   All payment creations of an order carry the same key and amount, all refunds the same key, the stored payment
   and its full amount; once the provider named the payment its reference never changes.
   */
  lemma OneChargeOneRefund(cfg: Settings, info: OrderInfo, testPaymentId: string, events: seq<Event>, more: seq<Event>)
    requires ValidRequest(cfg, info)
    ensures
      var now, later := Reach(cfg, info, testPaymentId, events), Reach(cfg, info, testPaymentId, events + more);
      && (forall i :: 0 <= i < |later.tally.charges| ==>
            later.tally.charges[i] == ChargePost(ChargeKey(info.number), info.rubAmount))
      && (later.tally.refunds != [] ==> later.rec.payment.Some?)
      && (forall i :: 0 <= i < |later.tally.refunds| ==>
            later.tally.refunds[i]
            == RefundCall(later.rec.payment.value.reference, info.rubAmount, RefundKey(info.number)))
      && |ExecutedCharges(later.tally.charges)| <= 1 && |ExecutedRefunds(later.tally.refunds)| <= 1
      && (now.rec.payment.Some? && now.rec.payment.value.reference.ProviderReference? ==>
            later.rec.payment.Some? && later.rec.payment.value.reference == now.rec.payment.value.reference)
  {
    LaterPersists(cfg, info, testPaymentId, events, more);
    ReachIsSound(cfg, info, testPaymentId, events + more);
    RunKeepsPayments(cfg, info, testPaymentId, events + more);
    hide Run, Begin, Chronicle;
    var later := Reach(cfg, info, testPaymentId, events + more);
    if later.tally.refunds != [] { assert IsTheRefund(later.rec, later.tally.refunds[0]); }
    forall i | 0 <= i < |later.tally.refunds|
      ensures later.tally.refunds[i]
              == RefundCall(later.rec.payment.value.reference, info.rubAmount, RefundKey(info.number))
    {
      RefundIsFull(cfg, later.rec, later.tally.refunds[i]);
    }
    AtMostOneElement(ExecutedCharges(later.tally.charges), ChargeKey(info.number));
    AtMostOneElement(ExecutedRefunds(later.tally.refunds), RefundKey(info.number));
  }
}
