/** What one transfer does to an invoiced TON order, whatever else happens to the order meanwhile. */
module TonSettlement {
  import opened Domain
  import opened Ledger
  import opened OrderFlow
  import opened OrderInvariants
  import opened OrderPersistence
  import opened OrderSafety
  import opened Protocol
  import opened TonPayment

  // ---------------------------------------------------------------- runs with one transfer

  predicate IsSighting(e: Event) {
    e.Transact? && e.op.SeeTon?
  }

  /**
   The only transfer that is seen is this one, which no other order holds, and nobody closes or reviews the order
   before its time. Anything else may happen.
   */
  predicate Undisturbed(e: Event, seen: Observation, expiresAt: int) {
    && (IsSighting(e) ==> e.op.seen == seen && !e.op.clash)
    && (e.Transact? && e.op.Expire? ==> e.op.now < expiresAt)
    && !(e.Transact? && (e.op.Cancel? || e.op.SendToReview?)) && !e.StartReconciliation?
  }

  function Sightings(events: seq<Event>): nat {
    if events == [] then 0
    else Sightings(events[..|events| - 1]) + if IsSighting(events[|events| - 1]) then 1 else 0
  }

  predicate IsOldEnough(cfg: Settings, seen: Sighting, now: int) {
    now - seen.timestamp >= cfg.confirmationSeconds
  }

  /** The transfer was seen for a third or later time when it was old enough. */
  predicate SeenSettled(cfg: Settings, seen: Sighting, events: seq<Event>) {
    events != [] &&
    (|| SeenSettled(cfg, seen, events[..|events| - 1])
     || (var last := events[|events| - 1];
         IsSighting(last) && Sightings(events[..|events| - 1]) >= 2 && IsOldEnough(cfg, seen, last.op.now)))
  }

  /** What speaks against the transfer, if anything. */
  function Objection(seen: Sighting, invoice: Invoice, expiresAt: int): Option<Code> {
    if seen.destination != invoice.destination || !NamesTon(seen.currency) || !NamesTon(seen.network) then
      Some(PaymentRouteMismatch)
    else if seen.amount < invoice.amount then Some(PaymentUnderpaid)
    else if seen.amount > invoice.amount then Some(PaymentOverpaid)
    else if seen.timestamp > expiresAt then Some(LatePayment)
    else None
  }

  // ---------------------------------------------------------------- one event

  /** An unpaid TON order that has no purchase and no refund. */
  predicate UnpaidTon(r: Rec) {
    && r.order.payType == Some(TonPay) && r.attempt.None? && !Confirmed(r)
    && r.payment.Some? && r.payment.value.terms.provider.Toncenter? && r.payment.value.refund.id.None?
    && (|| r.order.status.WaitingForPayment? || r.order.status.PaymentDetected? || r.order.status.PaymentConfirming?
        || r.order.status.ManualReview?)
  }

  /** The order waits with this invoice and, once it was seen, this transaction. */
  predicate Pending(r: Rec, invoice: Invoice, expiresAt: int, status: OrderStatus, hash: Option<string>) {
    && UnpaidTon(r) && r.order.status == status && r.order.tonHash == hash
    && r.order.invoice == Some(invoice) && r.order.expiresAt == Some(expiresAt)
  }

  predicate Reviewed(r: Rec, code: Code) {
    UnpaidTon(r) && r.order.status.ManualReview? && r.order.errorCode == Some(code)
  }

  lemma SetupInvoices(cfg: Settings, r: Rec, amount: int, comment: string, destination: string, expiresAt: int)
    requires WellFormed(cfg, r) && r.order.status.Created?
    ensures var res := SetupTonPayment(r, amount, comment, destination, expiresAt);
            res.Ok? && Pending(res.value, Invoice(amount, destination), expiresAt, WaitingForPayment, None)
  {
    hide StatusNotes;
  }

  /** Nothing but an outbox row changes. */
  predicate OnlyNoted(r: Rec, after: Rec) {
    after == r.(notes := after.notes)
  }

  lemma OtherTransactionsOnlyNote(cfg: Settings, r: Rec, op: Op, seen: Observation, expiresAt: int)
    requires UnpaidTon(r) && (r.order.expiresAt == Some(expiresAt) || r.order.status.ManualReview?)
    requires Undisturbed(Transact(op), seen, expiresAt) && !op.SeeTon?
    ensures var res := Execute(cfg, r, op); res.Ok? ==> OnlyNoted(r, res.value)
  {
    hide StatusNotes, RecordTonObservation, TransitionYooStatus;
  }

  lemma CallsDoNothing(cfg: Settings, r: Rec, now: int, expiresAt: int)
    requires UnpaidTon(r)
    ensures InitiateYoo(r, now, expiresAt).Raise? && BeginRefund(r).Raise? && ApproveBalanceRetry(r).Raise?
    ensures var res := BeginDelivery(cfg, r, true); res == Ok((r, Stop))
    ensures var res := BeginDelivery(cfg, r, false); res == Ok((r, Stop))
    ensures !cfg.testMode ==> BeginTestConfirmation(cfg, r).Raise?
  {
    hide StatusNotes, PurchaseValidationError;
  }

  lemma OtherEventsOnlyNote(cfg: Settings, c: Cell, e: Event, seen: Observation, expiresAt: int)
    requires !cfg.testMode && c.tasks == map[] && UnpaidTon(c.rec)
    requires c.rec.order.expiresAt == Some(expiresAt) || c.rec.order.status.ManualReview?
    requires Undisturbed(e, seen, expiresAt) && !IsSighting(e)
    ensures var after := Step(cfg, c, e); after.tasks == map[] && OnlyNoted(c.rec, after.rec)
  {
    CallsDoNothing(cfg, c.rec, if e.StartCharge? then e.now else 0, if e.StartCharge? then e.expiresAt else 0);
    if e.Transact? { OtherTransactionsOnlyNote(cfg, c.rec, e.op, seen, expiresAt); }
    hide Execute, BeginDelivery, InitiateYoo, BeginRefund, BeginTestConfirmation, OnlyNoted;
    OnlyNotedReflexive(c.rec);
  }

  lemma OnlyNotedReflexive(r: Rec)
    ensures OnlyNoted(r, r)
  {
  }

  lemma RouteIsReviewed(cfg: Settings, r: Rec, invoice: Invoice, expiresAt: int, seen: Observation, now: int, stale: bool)
    requires Pending(r, invoice, expiresAt, WaitingForPayment, None) && !OnRoute(r.order, seen)
    ensures
      var res := RecordTonObservation(cfg, r, seen, now, false, stale);
      res.Ok? && Reviewed(res.value, PaymentRouteMismatch)
  {
    hide StatusNotes, SettleTon, RecordDetection;
  }

  /** A waiting order whose transaction was just linked. */
  predicate JustLinked(r: Rec, invoice: Invoice, expiresAt: int, seen: Sighting) {
    Pending(r, invoice, expiresAt, WaitingForPayment, Some(seen.hash))
  }

  lemma FirstSightingLinks(cfg: Settings, r: Rec, invoice: Invoice, expiresAt: int, seen: Observation, now: int, stale: bool)
    requires Pending(r, invoice, expiresAt, WaitingForPayment, None) && OnRoute(r.order, seen)
    ensures
      var linked := RecordDetection(r, seen.hash, seen.amount, false, stale);
      && linked.Ok? && linked.value.Some? && JustLinked(linked.value.value, invoice, expiresAt, seen)
      && RecordTonObservation(cfg, r, seen, now, false, stale) == SettleTon(cfg, linked.value.value, seen, now)
  {
    hide StatusNotes, SettleTon;
  }

  lemma LinkedSettles(cfg: Settings, r: Rec, invoice: Invoice, expiresAt: int, seen: Observation, now: int)
    requires JustLinked(r, invoice, expiresAt, seen) && OnRoute(r.order, seen)
    ensures
      var res := SettleTon(cfg, r, seen, now);
      && res.Ok?
      && (match Objection(seen, invoice, expiresAt)
          case None => Pending(res.value, invoice, expiresAt, PaymentDetected, Some(seen.hash))
          case Some(code) => Reviewed(res.value, code))
  {
    hide StatusNotes;
  }

  lemma FirstSighting(cfg: Settings, r: Rec, invoice: Invoice, expiresAt: int, seen: Observation, now: int, stale: bool)
    requires Pending(r, invoice, expiresAt, WaitingForPayment, None)
    ensures
      var res := RecordTonObservation(cfg, r, seen, now, false, stale);
      && res.Ok?
      && (match Objection(seen, invoice, expiresAt)
          case None => Pending(res.value, invoice, expiresAt, PaymentDetected, Some(seen.hash))
          case Some(code) => Reviewed(res.value, code))
  {
    if OnRoute(r.order, seen) {
      FirstSightingLinks(cfg, r, invoice, expiresAt, seen, now, stale);
      LinkedSettles(cfg, RecordDetection(r, seen.hash, seen.amount, false, stale).value.value, invoice, expiresAt, seen, now);
    } else {
      RouteIsReviewed(cfg, r, invoice, expiresAt, seen, now, stale);
    }
    hide RecordTonObservation, SettleTon, RecordDetection, UnpaidTon, Reviewed;
  }

  lemma SecondSighting(cfg: Settings, r: Rec, invoice: Invoice, expiresAt: int, seen: Observation, now: int, stale: bool)
    requires Pending(r, invoice, expiresAt, PaymentDetected, Some(seen.hash)) && Objection(seen, invoice, expiresAt).None?
    ensures
      var res := RecordTonObservation(cfg, r, seen, now, false, stale);
      res.Ok? && Pending(res.value, invoice, expiresAt, PaymentConfirming, Some(seen.hash))
  {
    hide StatusNotes;
  }

  lemma LaterSighting(cfg: Settings, r: Rec, invoice: Invoice, expiresAt: int, seen: Observation, now: int, stale: bool)
    requires Pending(r, invoice, expiresAt, PaymentConfirming, Some(seen.hash)) && Objection(seen, invoice, expiresAt).None?
    ensures
      var res := RecordTonObservation(cfg, r, seen, now, false, stale);
      if IsOldEnough(cfg, seen, now) then res.Ok? && res.value.order.status.Paid? && Confirmed(res.value)
      else res == Ok(r)
  {
    hide StatusNotes;
  }

  lemma ReviewedIgnoresSightings(cfg: Settings, r: Rec, seen: Observation, now: int, clash: bool, stale: bool)
    requires r.order.status.ManualReview?
    ensures RecordTonObservation(cfg, r, seen, now, clash, stale) == Ok(r)
  {
  }

  // ---------------------------------------------------------------- any number of events

  function PendingStatus(sightings: nat): OrderStatus {
    if sightings == 0 then WaitingForPayment else if sightings == 1 then PaymentDetected else PaymentConfirming
  }

  /** The transfer pays the invoice in full and in time, and was seen often and late enough. */
  predicate PaidFor(cfg: Settings, seen: Sighting, invoice: Invoice, expiresAt: int, events: seq<Event>) {
    Objection(seen, invoice, expiresAt).None? && SeenSettled(cfg, seen, events)
  }

  /** Where the events so far have brought the order. */
  ghost predicate Followed(cfg: Settings, c: Cell, invoice: Invoice, expiresAt: int, seen: Sighting, events: seq<Event>) {
    var objection := Objection(seen, invoice, expiresAt);
    if PaidFor(cfg, seen, invoice, expiresAt, events) then Confirmed(c.rec)
    else if objection.Some? && Sightings(events) > 0 then c.tasks == map[] && Reviewed(c.rec, objection.value)
    else
      && c.tasks == map[]
      && Pending(c.rec, invoice, expiresAt, PendingStatus(Sightings(events)),
                 if Sightings(events) == 0 then None else Some(seen.hash))
  }

  lemma GrownBy(cfg: Settings, seen: Sighting, events: seq<Event>, e: Event)
    ensures Sightings(events + [e]) == Sightings(events) + if IsSighting(e) then 1 else 0
    ensures SeenSettled(cfg, seen, events + [e]) <==>
              || SeenSettled(cfg, seen, events)
              || (IsSighting(e) && Sightings(events) >= 2 && IsOldEnough(cfg, seen, e.op.now))
  {
    assert (events + [e])[..|events|] == events;
  }

  lemma OtherEventFollows(cfg: Settings, c: Cell, invoice: Invoice, expiresAt: int, seen: Observation, events: seq<Event>,
                          e: Event)
    requires !cfg.testMode && Followed(cfg, c, invoice, expiresAt, seen, events)
    requires !PaidFor(cfg, seen, invoice, expiresAt, events) && Undisturbed(e, seen, expiresAt) && !IsSighting(e)
    ensures Followed(cfg, Step(cfg, c, e), invoice, expiresAt, seen, events + [e])
  {
    GrownBy(cfg, seen, events, e);
    OtherEventsOnlyNote(cfg, c, e, seen, expiresAt);
    hide Step, Sightings, SeenSettled, Objection;
  }

  lemma SightingFollows(cfg: Settings, c: Cell, invoice: Invoice, expiresAt: int, seen: Observation, events: seq<Event>,
                        e: Event)
    requires Followed(cfg, c, invoice, expiresAt, seen, events) && !PaidFor(cfg, seen, invoice, expiresAt, events)
    requires Undisturbed(e, seen, expiresAt) && IsSighting(e)
    ensures Followed(cfg, Step(cfg, c, e), invoice, expiresAt, seen, events + [e])
  {
    GrownBy(cfg, seen, events, e);
    var res := RecordTonObservation(cfg, c.rec, seen, e.op.now, false, e.op.stale);
    assert e == Transact(SeeTon(seen, e.op.now, false, e.op.stale));
    assert Step(cfg, c, e).rec == if res.Ok? then res.value else c.rec;
    assert Step(cfg, c, e).tasks == c.tasks;
    if Sightings(events) == 0 {
      SettledWasSeen(cfg, seen, events);
      FirstSighting(cfg, c.rec, invoice, expiresAt, seen, e.op.now, e.op.stale);
    } else if Objection(seen, invoice, expiresAt).Some? {
      ReviewedIgnoresSightings(cfg, c.rec, seen, e.op.now, false, e.op.stale);
    } else if Sightings(events) == 1 {
      SecondSighting(cfg, c.rec, invoice, expiresAt, seen, e.op.now, e.op.stale);
    } else {
      LaterSighting(cfg, c.rec, invoice, expiresAt, seen, e.op.now, e.op.stale);
    }
    hide Step, RecordTonObservation, Sightings, SeenSettled, Objection, Pending, Reviewed, Confirmed;
  }

  lemma {:induction false} SettledWasSeen(cfg: Settings, seen: Sighting, events: seq<Event>)
    ensures SeenSettled(cfg, seen, events) ==> Sightings(events) >= 3
  {
    if events != [] { SettledWasSeen(cfg, seen, events[..|events| - 1]); }
  }

  lemma PaidStays(cfg: Settings, before: Cell, after: Cell, invoice: Invoice, expiresAt: int, seen: Sighting,
                  events: seq<Event>, e: Event)
    requires Followed(cfg, before, invoice, expiresAt, seen, events) && PaidFor(cfg, seen, invoice, expiresAt, events)
    requires Persists(before.rec, after.rec)
    ensures Followed(cfg, after, invoice, expiresAt, seen, events + [e])
  {
    GrownBy(cfg, seen, events, e);
    hide Pending, Reviewed, Objection, Sightings, SeenSettled;
  }

  lemma LastFollows(cfg: Settings, c: Cell, invoice: Invoice, expiresAt: int, seen: Observation, events: seq<Event>, e: Event)
    requires !cfg.testMode && Sound(cfg, c.rec) && Followed(cfg, c, invoice, expiresAt, seen, events)
    requires Undisturbed(e, seen, expiresAt)
    ensures Followed(cfg, Step(cfg, c, e), invoice, expiresAt, seen, events + [e])
  {
    hide Step, Followed, WellFormed, Chronicle, Undisturbed, PaidFor, Persists;
    if PaidFor(cfg, seen, invoice, expiresAt, events) {
      StepKeeps(cfg, c, e);
      PaidStays(cfg, c, Step(cfg, c, e), invoice, expiresAt, seen, events, e);
    } else if IsSighting(e) {
      SightingFollows(cfg, c, invoice, expiresAt, seen, events, e);
    } else {
      OtherEventFollows(cfg, c, invoice, expiresAt, seen, events, e);
    }
  }

  lemma {:induction false} RunFollows(cfg: Settings, c: Cell, invoice: Invoice, expiresAt: int, seen: Observation,
                                      events: seq<Event>)
    requires !cfg.testMode && Sound(cfg, c.rec) && c.tasks == map[]
    requires Pending(c.rec, invoice, expiresAt, WaitingForPayment, None)
    requires forall e :: e in events ==> Undisturbed(e, seen, expiresAt)
    ensures Followed(cfg, Run(cfg, c, events), invoice, expiresAt, seen, events)
  {
    if events != [] {
      var earlier, last := events[..|events| - 1], events[|events| - 1];
      assert events == earlier + [last];
      RunFollows(cfg, c, invoice, expiresAt, seen, earlier);
      RunKeeps(cfg, c, earlier);
      LastFollows(cfg, Run(cfg, c, earlier), invoice, expiresAt, seen, earlier, last);
      hide Step, Followed, Sound, Pending, Undisturbed, SeenSettled, Persists;
    }
  }

  /** The order just got its invoice. */
  ghost function InvoicedCell(cfg: Settings, info: OrderInfo, testPaymentId: string, amount: int, comment: string,
                              destination: string, expiresAt: int): Cell
  {
    Step(cfg, Begin(cfg, info, testPaymentId), Transact(SetupTon(amount, comment, destination, expiresAt)))
  }

  lemma InvoicedIsPending(cfg: Settings, info: OrderInfo, testPaymentId: string, amount: int, comment: string,
                          destination: string, expiresAt: int)
    requires ValidRequest(cfg, info) && !cfg.testMode
    ensures
      var c := InvoicedCell(cfg, info, testPaymentId, amount, comment, destination, expiresAt);
      && c.tasks == map[] && Sound(cfg, c.rec)
      && Pending(c.rec, Invoice(amount, destination), expiresAt, WaitingForPayment, None)
  {
    var start := Begin(cfg, info, testPaymentId);
    BeginIsSound(cfg, info, testPaymentId);
    StepKeeps(cfg, start, Transact(SetupTon(amount, comment, destination, expiresAt)));
    assert start.rec.order.status.Created? && start.tasks == map[];
    hide Begin, WellFormed, Chronicle, SetupTonPayment, Pending;
    SetupInvoices(cfg, start.rec, amount, comment, destination, expiresAt);
  }

  /**
   An invoiced order that sees one transfer, any number of times, with anything else but a close or a review between:
   the payment is confirmed exactly when the transfer speaks for itself and was seen a third time once it was old
   enough, and a transfer with a wrong route, too little, too much or too late is reviewed for just that at once.
   */
  lemma InvoicedOrder(cfg: Settings, info: OrderInfo, testPaymentId: string, amount: int, comment: string,
                      destination: string, expiresAt: int, seen: Observation, events: seq<Event>)
    requires ValidRequest(cfg, info) && !cfg.testMode
    requires forall e :: e in events ==> Undisturbed(e, seen, expiresAt)
    ensures
      var r := Run(cfg, InvoicedCell(cfg, info, testPaymentId, amount, comment, destination, expiresAt), events).rec;
      var objection := Objection(seen, Invoice(amount, destination), expiresAt);
      && (Confirmed(r) <==> objection.None? && SeenSettled(cfg, seen, events))
      && (objection.Some? && Sightings(events) > 0 ==>
            r.order.status.ManualReview? && r.order.errorCode == objection)
  {
    InvoicedIsPending(cfg, info, testPaymentId, amount, comment, destination, expiresAt);
    hide Run, InvoicedCell, Sound, Undisturbed, Objection, SeenSettled, Sightings;
    RunFollows(cfg, InvoicedCell(cfg, info, testPaymentId, amount, comment, destination, expiresAt),
               Invoice(amount, destination), expiresAt, seen, events);
  }

  /** An on-route, on-time transfer that was seen settled pays exactly when it is the least amount covering the quote. */
  lemma ExactlyOneAmountSettles(cfg: Settings, limits: Limits, quote: Quote, quotedAt: int, rate: real, info: OrderInfo,
                                testPaymentId: string, comment: string, destination: string, expiresAt: int,
                                seen: Observation, events: seq<Event>)
    requires ValidRequest(cfg, info) && !cfg.testMode
    requires rate > 0.0 && TonPaymentFromQuote(limits, quote, quotedAt, rate).Ok?
    requires seen.destination == destination && NamesTon(seen.currency) && NamesTon(seen.network)
    requires seen.timestamp <= expiresAt && SeenSettled(cfg, seen, events)
    requires forall e :: e in events ==> Undisturbed(e, seen, expiresAt)
    ensures
      var amount := TonPaymentFromQuote(limits, quote, quotedAt, rate).value;
      var r := Run(cfg, InvoicedCell(cfg, info, testPaymentId, amount, comment, destination, expiresAt), events).rec;
      && (Confirmed(r) <==> Covers(quote, rate, seen.amount) && !Covers(quote, rate, seen.amount - 1))
      && (!Covers(quote, rate, seen.amount) ==> r.order.errorCode == Some(PaymentUnderpaid))
      && (Covers(quote, rate, seen.amount - 1) ==> r.order.errorCode == Some(PaymentOverpaid))
  {
    var amount := TonPaymentFromQuote(limits, quote, quotedAt, rate).value;
    InvoicedOrder(cfg, info, testPaymentId, amount, comment, destination, expiresAt, seen, events);
    SettledWasSeen(cfg, seen, events);
    InvoiceIsLeast(limits, quote, quotedAt, rate, seen.amount);
    InvoiceIsLeast(limits, quote, quotedAt, rate, seen.amount - 1);
    hide Run, InvoicedCell, TonPaymentFromQuote, Covers, SeenSettled, Sightings, Undisturbed, Confirmed;
  }
}
