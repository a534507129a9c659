/** However YooKassa's snapshots of one payment are reordered and repeated, the order ends in the same status. */
module YooConvergence {
  import opened Domain
  import opened Ledger
  import opened OrderFlow
  import opened OrderInvariants
  import opened Protocol

  // ---------------------------------------------------------------- events

  /** An accepted truthful snapshot of the payment `id` of this order. */
  predicate Matches(info: OrderInfo, id: string, e: Event) {
    && e.Transact? && e.op.Snap? && !e.op.clash
    && var snap := e.op.snap;
    && snap.orderNumber == info.number && snap.currency == "RUB" && snap.amount == info.rubAmount
    && snap.paymentId == id
    && (snap.status.SnapSucceeded? ==> snap.paid)
  }

  /** A snapshot the service refuses whatever the order looks like. */
  predicate Foreign(info: OrderInfo, e: Event) {
    && e.Transact? && e.op.Snap?
    && var snap := e.op.snap;
    || e.op.clash
    || snap.orderNumber != info.number || snap.currency != "RUB" || snap.amount != info.rubAmount
    || (snap.status.SnapSucceeded? && !snap.paid)
  }

  /** A snapshot that speaks of this order but names a payment other than `id`. */
  predicate NamesOther(info: OrderInfo, id: string, e: Event) {
    e.Transact? && e.op.Snap? && e.op.snap.paymentId != id && !Foreign(info, e)
  }

  /**
   What may happen between snapshots without closing the order: payment links asked for again, creations sent or
   lost in a crash, cancellations by the buyer, and resent notices.
   */
  predicate IsOpen(e: Event) {
    || e.StartCharge? || e.SendCharge? || e.Crash?
    || (e.Transact? && (e.op.Snap? || e.op.Cancel? || e.op.ResendNotice?))
  }

  ghost predicate Reports(info: OrderInfo, id: string, events: seq<Event>, status: SnapshotStatus) {
    exists e :: e in events && Matches(info, id, e) && e.op.snap.status == status
  }

  /** The status that the reports alone call for, in whatever order they arrive. */
  ghost function CalledFor(info: OrderInfo, id: string, events: seq<Event>): OrderStatus {
    if Reports(info, id, events, SnapSucceeded) then Paid
    else if Reports(info, id, events, SnapCanceled) then PaymentFailed
    else if Reports(info, id, events, SnapWaitingForCapture) then PaymentConfirming
    else WaitingForPayment
  }

  /** Another payment is only named once an accepted snapshot has named this one. */
  ghost predicate NamedFirst(info: OrderInfo, id: string, events: seq<Event>) {
    forall k :: 0 <= k < |events| && NamesOther(info, id, events[k]) ==>
      exists j :: 0 <= j < k && Matches(info, id, events[j])
  }

  function PaidEntries(log: seq<Edge>): nat {
    if log == [] then 0 else PaidEntries(log[..|log| - 1]) + (if log[|log| - 1].target.Paid? then 1 else 0)
  }

  lemma TransitionCountsPaid(r: Rec, target: OrderStatus, code: Option<Code>)
    requires Transition(r, target, code).Ok?
    ensures PaidEntries(Transition(r, target, code).value.log)
            == PaidEntries(r.log) + if target.Paid? && !r.order.status.Paid? then 1 else 0
  {
    if r.order.status != target {
      var log := r.log + [Edge(r.order.status, target)];
      assert log[..|log| - 1] == r.log;
    }
  }

  // ---------------------------------------------------------------- one event

  /** The provider's name for the payment is known to be `id`. */
  predicate Named(r: Rec, id: string) {
    IsYoo(r) && r.payment.value.reference == ProviderReference(id)
  }

  /** An order that takes snapshots about the payment `id`. */
  predicate Listening(r: Rec, id: string) {
    && IsYoo(r)
    && (r.payment.value.reference.ProviderReference? ==> r.payment.value.reference.id == id)
    && (r.order.status.Paid? <==> Confirmed(r))
    && (Confirmed(r) ==> r.payment.value.reference.ProviderReference?)
  }

  /** The next status of a listening order, as a table. */
  function Next(status: OrderStatus, snap: SnapshotStatus): OrderStatus {
    if status.Paid? || status.PaymentFailed? then status
    else
      match snap
      case SnapPending => status
      case SnapWaitingForCapture => PaymentConfirming
      case SnapSucceeded => Paid
      case SnapCanceled => PaymentFailed
  }

  /** The order is neither closed nor under review. */
  predicate InPlay(status: OrderStatus) {
    status.WaitingForPayment? || status.PaymentConfirming? || status.Paid? || status.PaymentFailed?
  }

  /** Nothing that the convergence depends on has changed. */
  predicate Unmoved(r: Rec, after: Rec) {
    && after.order.info == r.order.info && after.order.status == r.order.status && after.log == r.log
    && after.payment == r.payment
  }

  /** What an accepted snapshot does to a listening order. */
  predicate Moved(r: Rec, after: Rec, id: string, status: SnapshotStatus) {
    && Listening(after, id) && Named(after, id) && after.order.info == r.order.info
    && after.order.status == Next(r.order.status, status)
    && PaidEntries(after.log)
       == PaidEntries(r.log) + if after.order.status.Paid? && !r.order.status.Paid? then 1 else 0
  }

  lemma SettledMoves(r: Rec, id: string, snap: Snapshot)
    requires Listening(r, id) && Matches(r.order.info, id, Transact(Snap(snap, false)))
    requires r.order.status.Paid? || (r.order.status.PaymentFailed? && !snap.status.SnapSucceeded?)
    ensures var res := ApplySnapshot(r, snap, false); Moved(r, if res.Ok? then res.value else r, id, snap.status)
  {
    hide StatusNotes, PaidEntries;
  }

  /** The two steps to confirming never enter PAID. */
  lemma CountAdvances(r: Rec)
    requires r.order.status.WaitingForPayment? || r.order.status.PaymentConfirming?
    ensures
      var detected := Advance(r, WaitingForPayment, PaymentDetected);
      && detected.Ok?
      && var confirming := Advance(detected.value, PaymentDetected, PaymentConfirming);
      && confirming.Ok? && confirming.value.order.status.PaymentConfirming?
      && confirming.value.payment == r.payment && confirming.value.order.info == r.order.info
      && PaidEntries(confirming.value.log) == PaidEntries(r.log)
  {
    if r.order.status.WaitingForPayment? {
      TransitionCountsPaid(r, PaymentDetected, None);
      TransitionCountsPaid(Transition(r, PaymentDetected, None).value, PaymentConfirming, None);
    }
  }

  lemma CancelMoves(r: Rec, id: string, snap: Snapshot)
    requires Listening(r, id) && Matches(r.order.info, id, Transact(Snap(snap, false)))
    requires r.order.status.WaitingForPayment? || r.order.status.PaymentConfirming?
    requires snap.status.SnapCanceled?
    ensures var res := ApplySnapshot(r, snap, false); res.Ok? && Moved(r, res.value, id, snap.status)
  {
    hide PaidEntries, StatusNotes;
    TransitionCountsPaid(SetPaymentStatus(Synced(r, snap), PayCanceled), PaymentFailed, Some(YooKassaPaymentCanceled));
  }

  lemma OpenMoves(r: Rec, id: string, snap: Snapshot)
    requires Listening(r, id) && Matches(r.order.info, id, Transact(Snap(snap, false)))
    requires r.order.status.WaitingForPayment? || r.order.status.PaymentConfirming?
    requires snap.status.SnapPending? || snap.status.SnapWaitingForCapture?
    ensures var res := ApplySnapshot(r, snap, false); res.Ok? && Moved(r, res.value, id, snap.status)
  {
    hide PaidEntries, StatusNotes;
    CountAdvances(Synced(r, snap));
  }

  lemma SuccessMoves(r: Rec, id: string, snap: Snapshot)
    requires Listening(r, id) && Matches(r.order.info, id, Transact(Snap(snap, false)))
    requires r.order.status.WaitingForPayment? || r.order.status.PaymentConfirming?
    requires snap.status.SnapSucceeded?
    ensures var res := ApplySnapshot(r, snap, false); res.Ok? && Moved(r, res.value, id, snap.status)
  {
    hide PaidEntries, StatusNotes;
    var synced := Synced(r, snap);
    CountAdvances(synced);
    var detected := Advance(synced, WaitingForPayment, PaymentDetected).value;
    var confirming := Advance(detected, PaymentDetected, PaymentConfirming).value;
    TransitionCountsPaid(SetPaymentStatus(confirming, PaySucceeded), Paid, None);
  }

  lemma MatchMoves(cfg: Settings, c: Cell, id: string, e: Event)
    requires Listening(c.rec, id) && InPlay(c.rec.order.status) && Matches(c.rec.order.info, id, e)
    requires c.rec.order.status.PaymentFailed? ==> !e.op.snap.status.SnapSucceeded?
    ensures Moved(c.rec, Step(cfg, c, e).rec, id, e.op.snap.status)
  {
    var snap := e.op.snap;
    assert e == Transact(Snap(snap, false));
    if c.rec.order.status.Paid? || c.rec.order.status.PaymentFailed? {
      SettledMoves(c.rec, id, snap);
    } else if snap.status.SnapSucceeded? {
      SuccessMoves(c.rec, id, snap);
    } else if snap.status.SnapCanceled? {
      CancelMoves(c.rec, id, snap);
    } else {
      OpenMoves(c.rec, id, snap);
    }
    hide ApplySnapshot, Moved, Matches, Listening;
  }

  lemma ForeignIsRefused(cfg: Settings, c: Cell, e: Event)
    requires Foreign(c.rec.order.info, e)
    ensures Step(cfg, c, e) == c
  {
    hide StatusNotes;
  }

  lemma OtherPaymentIsRefused(cfg: Settings, c: Cell, id: string, e: Event)
    requires Named(c.rec, id) && NamesOther(c.rec.order.info, id, e)
    ensures Step(cfg, c, e) == c
  {
    hide TransitionYooStatus;
  }

  lemma LinkMovesNothing(r: Rec, now: int, expiresAt: int)
    requires IsYoo(r) && !r.order.status.Created?
    ensures var res := InitiateYoo(r, now, expiresAt); res.Ok? ==> Unmoved(r, res.value.0)
  {
    hide StatusNotes;
  }

  lemma OtherEventsMoveNothing(cfg: Settings, c: Cell, e: Event)
    requires IsYoo(c.rec) && !c.rec.order.status.Created? && IsOpen(e) && !(e.Transact? && e.op.Snap?)
    ensures Unmoved(c.rec, Step(cfg, c, e).rec)
  {
    if e.StartCharge? { LinkMovesNothing(c.rec, e.now, e.expiresAt); }
    hide InitiateYoo, Drop;
  }

  // ---------------------------------------------------------------- any number of them

  lemma ReportsSplit(info: OrderInfo, id: string, earlier: seq<Event>, last: Event)
    ensures forall status {:trigger Reports(info, id, earlier, status)} :: Reports(info, id, earlier + [last], status)
              <==> Reports(info, id, earlier, status) || (Matches(info, id, last) && last.op.snap.status == status)
  {
    forall status
      ensures
        Reports(info, id, earlier + [last], status) <==>
        Reports(info, id, earlier, status) || (Matches(info, id, last) && last.op.snap.status == status)
    {
      assert forall e :: e in earlier + [last] <==> e in earlier || e == last;
      assert last in earlier + [last];
      hide Matches;
    }
  }

  /** Where the events seen so far have brought the order. */
  ghost predicate Converged(start: Rec, end: Rec, id: string, events: seq<Event>) {
    && Listening(end, id) && end.order.info == start.order.info
    && end.order.status == CalledFor(start.order.info, id, events)
    && (Named(start, id) || (exists j :: 0 <= j < |events| && Matches(start.order.info, id, events[j])) ==> Named(end, id))
    && PaidEntries(end.log) == PaidEntries(start.log) + if end.order.status.Paid? then 1 else 0
  }

  lemma UnmovedConverges(start: Rec, r: Rec, after: Rec, id: string, earlier: seq<Event>, last: Event)
    requires Converged(start, r, id, earlier) && Unmoved(r, after) && !Matches(start.order.info, id, last)
    ensures Converged(start, after, id, earlier + [last])
  {
    ReportsSplit(start.order.info, id, earlier, last);
    hide Matches, Reports, PaidEntries;
    assert forall j :: 0 <= j < |earlier| ==> (earlier + [last])[j] == earlier[j];
  }

  lemma MovedConverges(start: Rec, r: Rec, after: Rec, id: string, earlier: seq<Event>, last: Event)
    requires Converged(start, r, id, earlier) && Matches(start.order.info, id, last)
    requires Moved(r, after, id, last.op.snap.status)
    requires !(Reports(start.order.info, id, earlier + [last], SnapSucceeded)
               && Reports(start.order.info, id, earlier + [last], SnapCanceled))
    ensures Converged(start, after, id, earlier + [last])
  {
    ReportsSplit(start.order.info, id, earlier, last);
    hide Reports, PaidEntries, Matches;
  }

  /** The last event, on an order that the earlier ones brought where their reports call for. */
  lemma LastConverges(cfg: Settings, start: Rec, c: Cell, id: string, earlier: seq<Event>, last: Event)
    requires Converged(start, c.rec, id, earlier) && IsOpen(last)
    requires Named(start, id) || NamedFirst(start.order.info, id, earlier + [last])
    requires !(Reports(start.order.info, id, earlier + [last], SnapSucceeded)
               && Reports(start.order.info, id, earlier + [last], SnapCanceled))
    ensures Converged(start, Step(cfg, c, last).rec, id, earlier + [last])
  {
    var info := start.order.info;
    ReportsSplit(info, id, earlier, last);
    if Matches(info, id, last) {
      assert c.rec.order.status.PaymentFailed? ==> Reports(info, id, earlier, SnapCanceled);
      MatchMoves(cfg, c, id, last);
      hide Step, Moved, Matches, Reports, Converged;
      MovedConverges(start, c.rec, Step(cfg, c, last).rec, id, earlier, last);
    } else {
      if Foreign(info, last) {
        ForeignIsRefused(cfg, c, last);
      } else if NamesOther(info, id, last) {
        assert (earlier + [last])[|earlier|] == last;
        assert Named(start, id) || exists j :: 0 <= j < |earlier| && Matches(info, id, (earlier + [last])[j]);
        assert forall j :: 0 <= j < |earlier| ==> (earlier + [last])[j] == earlier[j];
        OtherPaymentIsRefused(cfg, c, id, last);
      } else {
        OtherEventsMoveNothing(cfg, c, last);
      }
      hide Step, Matches, Reports, Converged;
      UnmovedConverges(start, c.rec, Step(cfg, c, last).rec, id, earlier, last);
    }
  }

  /**
   Snapshots of one payment, in any order and with any repetitions, between them any refused snapshots, key clashes,
   snapshots of other payments, renewed links, lost creations and cancellations by the buyer: the order ends in the
   status that the set of reports calls for, PAID exactly when success was reported and PAYMENT_FAILED exactly when
   a cancellation was. PAID is entered at most once.
   */
  lemma {:induction false} SnapshotsConverge(cfg: Settings, c: Cell, id: string, events: seq<Event>)
    requires Listening(c.rec, id) && c.rec.order.status.WaitingForPayment?
    requires forall e :: e in events ==> IsOpen(e)
    requires Named(c.rec, id) || NamedFirst(c.rec.order.info, id, events)
    requires !(Reports(c.rec.order.info, id, events, SnapSucceeded) && Reports(c.rec.order.info, id, events, SnapCanceled))
    ensures
      var end := Run(cfg, c, events).rec;
      && Converged(c.rec, end, id, events)
      && (end.order.status.Paid? <==> Reports(c.rec.order.info, id, events, SnapSucceeded))
      && (end.order.status.PaymentFailed? <==> Reports(c.rec.order.info, id, events, SnapCanceled))
      && (Confirmed(end) <==> Reports(c.rec.order.info, id, events, SnapSucceeded))
      && PaidEntries(end.log) == PaidEntries(c.rec.log) + if end.order.status.Paid? then 1 else 0
  {
    if events != [] {
      var earlier, last := events[..|events| - 1], events[|events| - 1];
      assert events == earlier + [last];
      ReportsSplit(c.rec.order.info, id, earlier, last);
      assert NamedFirst(c.rec.order.info, id, events) ==> NamedFirst(c.rec.order.info, id, earlier);
      SnapshotsConverge(cfg, c, id, earlier);
      LastConverges(cfg, c.rec, Run(cfg, c, earlier), id, earlier, last);
      hide Step, Reports, PaidEntries;
    }
  }

  /** Two runs that report the same about the payment agree, whatever else happens in them and in whatever order. */
  lemma OrderDoesNotMatter(cfg: Settings, c: Cell, id: string, events: seq<Event>, other: seq<Event>)
    requires Listening(c.rec, id) && c.rec.order.status.WaitingForPayment?
    requires forall e :: e in events || e in other ==> IsOpen(e)
    requires Named(c.rec, id) || (NamedFirst(c.rec.order.info, id, events) && NamedFirst(c.rec.order.info, id, other))
    requires !(Reports(c.rec.order.info, id, events, SnapSucceeded) && Reports(c.rec.order.info, id, events, SnapCanceled))
    requires forall e :: Matches(c.rec.order.info, id, e) ==> (e in events <==> e in other)
    ensures Run(cfg, c, other).rec.order.status == Run(cfg, c, events).rec.order.status
    ensures Confirmed(Run(cfg, c, other).rec) == Confirmed(Run(cfg, c, events).rec)
  {
    var info := c.rec.order.info;
    forall status ensures Reports(info, id, events, status) <==> Reports(info, id, other, status) {}
    SnapshotsConverge(cfg, c, id, events);
    SnapshotsConverge(cfg, c, id, other);
    hide Run, Reports, Matches, Listening;
  }

  /** Starting a YooKassa payment of a new order makes it listen to any one payment. */
  lemma StartListens(cfg: Settings, r: Rec, id: string, now: int, expiresAt: int)
    requires WellFormed(cfg, r) && r.order.status.Created?
    ensures var res := InitiateYoo(r, now, expiresAt);
            res.Ok? ==> Listening(res.value.0, id) && res.value.0.order.status.WaitingForPayment?
  {
  }

  /** Once the payment is confirmed, snapshots move nothing: no status, no audit event, no notice, no attempt. */
  lemma ReplaysMoveNothing(cfg: Settings, r: Rec, snap: Snapshot, clash: bool)
    requires WellFormed(cfg, r) && Confirmed(r)
    ensures
      var res := ApplySnapshot(r, snap, clash);
      res.Ok? ==>
        && res.value.order.status == r.order.status && res.value.log == r.log && res.value.notes == r.notes
        && res.value.attempt == r.attempt && Confirmed(res.value)
  {
  }

  lemma SuccessSettles(r: Rec, snap: Snapshot)
    requires snap.status.SnapSucceeded? && !r.order.status.Created? && TransitionYooStatus(r, snap).Ok?
    ensures
      var status := TransitionYooStatus(r, snap).value.order.status;
      Unpaid(status) || ClosedUnpaid(status) <==> r.order.status.PaymentFailed?
  {
  }

  /** An accepted success leaves the order unpaid or closed exactly when the order had already failed. */
  lemma SuccessSettlesUnlessFailed(cfg: Settings, r: Rec, snap: Snapshot, clash: bool)
    requires WellFormed(cfg, r) && snap.status.SnapSucceeded? && ApplySnapshot(r, snap, clash).Ok?
    ensures
      var after := ApplySnapshot(r, snap, clash).value;
      Unpaid(after.order.status) || ClosedUnpaid(after.order.status) <==> r.order.status.PaymentFailed?
  {
    hide TransitionYooStatus;
    SuccessSettles(Synced(r, snap), snap);
  }
}
