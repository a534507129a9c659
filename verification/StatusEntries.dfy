/**
 Which events bring an order into which status: for each status the exact circumstances, said of the event and of the
 rows it meets, whatever transaction it is that writes the status.
 */
module StatusEntries {
  import opened Domain
  import opened Ledger
  import opened OrderFlow
  import opened OrderInvariants
  import opened Protocol
  import opened Strings

  // ---------------------------------------------------------------- circumstances

  predicate AwaitsMoney(status: OrderStatus) {
    status.WaitingForPayment? || status.PaymentDetected? || status.PaymentConfirming?
  }

  /** The snapshot is about the payment of this order, for its whole price, as far as the order knows its payment. */
  predicate IsOwn(r: Rec, snap: Snapshot) {
    && r.payment.Some? && r.payment.value.terms.provider.YooKassa?
    && snap.orderNumber == r.order.info.number && snap.amount == r.order.info.rubAmount && snap.currency == "RUB"
    && (r.payment.value.reference.ProviderReference? ==> r.payment.value.reference.id == snap.paymentId)
  }

  predicate ToWallet(order: Order, seen: Sighting) {
    && order.invoice.Some? && seen.destination == order.invoice.value.destination
    && UpperText(seen.currency) == "TON" && UpperText(seen.network) == "TON"
  }

  predicate InTime(order: Order, seen: Sighting) {
    order.expiresAt.Some? ==> seen.timestamp <= order.expiresAt.value
  }

  /** The invoiced amount, to the invoiced wallet, and not too late. */
  predicate PaysInvoice(order: Order, seen: Sighting) {
    && order.payType == Some(TonPay) && ToWallet(order, seen) && seen.amount == order.invoice.value.amount
    && InTime(order, seen)
  }

  predicate Pends(res: PurchaseResult) {
    res.pending && res.requestId.Some? && res.requestId.value != ""
  }

  /** The provider says that it sent the Stars, and in which transaction. */
  predicate Delivers(res: PurchaseResult) {
    !Pends(res) && res.succeeded && res.txId.Some? && res.txId.value != ""
  }

  predicate LacksBalance(res: PurchaseResult) {
    && !Pends(res) && !res.succeeded
    && (res.code == Some(InsufficientBalance) || res.code == Some(InsufficientWalletBalance))
  }

  /** The provider refused for good. */
  predicate Refuses(res: PurchaseResult) {
    !Pends(res) && !res.succeeded && !LacksBalance(res) && !res.uncertain
  }

  /** The provider may or may not have sent the Stars. */
  predicate LeavesOpen(res: PurchaseResult) {
    !Pends(res) && !res.succeeded && !LacksBalance(res) && res.uncertain
  }

  predicate Applies(c: Cell, e: Event) {
    e.Apply? && e.task in c.tasks && c.tasks[e.task].Holding? && c.rec.attempt.Some?
  }

  function AnswerIn(c: Cell, e: Event): PurchaseResult
    requires Applies(c, e)
  {
    c.tasks[e.task].result
  }

  predicate Buying(status: OrderStatus) {
    status.PurchaseProcessing? || status.StarsSending?
  }

  predicate Due(at: Option<int>, now: int) {
    at.Some? && at.value <= now
  }

  predicate MissesUsername(cfg: Settings, info: OrderInfo) {
    cfg.fragmentMode && (if info.kind.SelfOrder? then info.buyerUsername else info.recipientUsername) == ""
  }

  // ---------------------------------------------------------------- what leads where

  predicate LeadsToWaiting(c: Cell, e: Event) {
    && c.rec.order.status.Created?
    && (|| (e.Transact? && e.op.SetupTon?)
        || (e.StartCharge? && e.task !in c.tasks && !Due(c.rec.order.expiresAt, e.now)))
  }

  predicate LeadsToDetected(c: Cell, e: Event) {
    && c.rec.order.status.WaitingForPayment?
    && e.Transact? && e.op.SeeTon? && PaysInvoice(c.rec.order, e.op.seen) && !e.op.clash
  }

  predicate LeadsToConfirming(cfg: Settings, c: Cell, e: Event) {
    || (&& c.rec.order.status.PaymentDetected?
        && e.Transact? && e.op.SeeTon? && PaysInvoice(c.rec.order, e.op.seen) && c.rec.order.tonHash == Some(e.op.seen.hash))
    || (&& (c.rec.order.status.WaitingForPayment? || c.rec.order.status.PaymentDetected?)
        && e.Transact? && e.op.Snap? && IsOwn(c.rec, e.op.snap) && e.op.snap.status.SnapWaitingForCapture? && !e.op.clash)
    || (&& c.rec.order.status.WaitingForPayment?
        && e.StartTest? && e.task !in c.tasks && cfg.testMode && Truthy(c.rec.order.paymentId))
  }

  /** The money is there: captured, seen for long enough, or confirmed in test mode. */
  predicate LeadsToPaid(cfg: Settings, c: Cell, e: Event) {
    || (&& AwaitsMoney(c.rec.order.status)
        && e.Transact? && e.op.Snap? && IsOwn(c.rec, e.op.snap) && e.op.snap.status.SnapSucceeded? && e.op.snap.paid
        && !e.op.clash)
    || (&& c.rec.order.status.PaymentConfirming?
        && e.Transact? && e.op.SeeTon? && PaysInvoice(c.rec.order, e.op.seen) && c.rec.order.tonHash == Some(e.op.seen.hash)
        && e.op.now - e.op.seen.timestamp >= cfg.confirmationSeconds)
    || (&& c.rec.order.status.PaymentConfirming?
        && e.EndTest? && e.succeeded && e.task in c.tasks && c.tasks[e.task].TestConfirming? && cfg.testMode)
  }

  /** A paid order that nothing holds back, or an approved retry. */
  predicate LeadsToProcessing(cfg: Settings, c: Cell, e: Event) {
    || (&& c.rec.order.status.Paid?
        && e.StartDelivery? && e.task !in c.tasks && !e.hold && !MissesUsername(cfg, c.rec.order.info))
    || (&& (c.rec.order.status.WaitingForMerchantBalance? || c.rec.order.status.ManualReview?)
        && e.Approve? && e.task in c.tasks && c.tasks[e.task].RetrySeen?
        && c.rec.attempt.Some? && c.rec.attempt.value.requestId.None?)
  }

  predicate LeadsToSending(c: Cell, e: Event) {
    && (c.rec.order.status.PurchaseProcessing? || c.rec.order.status.ManualReview?)
    && Applies(c, e) && Pends(AnswerIn(c, e)) && !e.clash
  }

  predicate LeadsToCompleted(c: Cell, e: Event) {
    && (Buying(c.rec.order.status) || c.rec.order.status.ManualReview?)
    && Applies(c, e) && Delivers(AnswerIn(c, e)) && !e.clash
  }

  predicate LeadsToBalance(c: Cell, e: Event) {
    Buying(c.rec.order.status) && Applies(c, e) && LacksBalance(AnswerIn(c, e))
  }

  predicate LeadsToRefund(c: Cell, e: Event) {
    && (Buying(c.rec.order.status) || c.rec.order.status.WaitingForMerchantBalance? || c.rec.order.status.ManualReview?)
    && Applies(c, e) && Refuses(AnswerIn(c, e))
  }

  predicate ReportsRefund(refund: Refund, reference: Reference, amount: int) {
    && refund.status.RefundSucceeded?
    && ProviderReference(refund.paymentId) == reference && refund.amount == amount && refund.currency == "RUB"
  }

  /** YooKassa reports the refund that was asked for, or the administrator confirms one that nothing speaks against. */
  predicate LeadsToRefunded(c: Cell, e: Event) {
    && c.rec.order.status.RefundRequired? && c.rec.payment.Some?
    && var payment := c.rec.payment.value;
       || (&& e.EndRefund? && e.task in c.tasks && c.tasks[e.task].RefundSent? && !e.clash
           && ReportsRefund(e.refund, c.tasks[e.task].call.paymentId, c.tasks[e.task].call.amount))
       || (&& e.Transact? && e.op.SyncRefundNotice? && payment.refund.id == Some(e.op.refund.id)
           && ReportsRefund(e.op.refund, payment.reference, payment.terms.expected))
       || (&& e.Transact? && e.op.ConfirmRefund?
           && (payment.terms.provider.YooKassa? ==> payment.refund.status == Some(RefundSucceeded)))
  }

  predicate LeadsToExpired(c: Cell, e: Event) {
    c.rec.order.status.WaitingForPayment? && e.Transact? && e.op.Expire? && Due(c.rec.order.expiresAt, e.op.now)
  }

  predicate LeadsToFailed(cfg: Settings, c: Cell, e: Event) {
    || (&& AwaitsMoney(c.rec.order.status)
        && e.Transact? && e.op.Snap? && IsOwn(c.rec, e.op.snap) && e.op.snap.status.SnapCanceled? && !e.op.clash)
    || (&& c.rec.order.status.PaymentConfirming?
        && e.EndTest? && !e.succeeded && e.task in c.tasks && c.tasks[e.task].TestConfirming? && cfg.testMode)
  }

  /** Only an order that no money can be on its way to is cancelled. */
  predicate LeadsToCancelled(c: Cell, e: Event) {
    && (c.rec.order.status.Created? || c.rec.order.status.WaitingForPayment?)
    && e.Transact? && e.op.Cancel?
    && (c.rec.payment.Some? ==> !c.rec.payment.value.terms.provider.YooKassa?)
  }

  // ---------------------------------------------------------------- reviews

  /** Why a sighting of a transfer is reviewed. */
  function SightingObjection(order: Order, seen: Sighting, clash: bool): Option<Code> {
    if order.payType != Some(TonPay) then None
    else if !(AwaitsMoney(order.status) || order.status.PaymentExpired? || order.status.Cancelled?) then None
    else if order.invoice.None? then None
    else if !ToWallet(order, seen) then Some(PaymentRouteMismatch)
    else if order.tonHash.None? && clash then Some(DuplicatePaymentTransaction)
    else if order.tonHash.Some? && order.tonHash.value != seen.hash then Some(MultiplePaymentTransactions)
    else if seen.amount < order.invoice.value.amount then Some(PaymentUnderpaid)
    else if seen.amount > order.invoice.value.amount then Some(PaymentOverpaid)
    else if !AwaitsMoney(order.status) || !InTime(order, seen) then Some(LatePayment)
    else None
  }

  /** Why an answer about a purchase is reviewed; `undecided` is an answer that leaves open what happened. */
  function AnswerObjection(status: OrderStatus, res: PurchaseResult, clash: bool, stale: bool): Option<Code> {
    if !(Buying(status) || status.RefundRequired? || status.WaitingForMerchantBalance?) then None
    else if LeavesOpen(res) then Some(if res.code.Some? then res.code.value else PurchaseFailedCode)
    else if res.succeeded && !Pends(res) && !Delivers(res) then Some(PurchaseReferenceMissing)
    else if Delivers(res) && clash && (Buying(status) || !stale) then Some(DuplicateProviderTransaction)
    else None
  }

  /** Why the event sends the order to manual review, if it does. */
  function Objection(cfg: Settings, c: Cell, e: Event): Option<Code> {
    var status := c.rec.order.status;
    if status.ManualReview? then None
    else
      match e
      case Transact(SendToReview) =>
        if status.Completed? || status.Refunded? || status.PaymentFailed? then None else Some(AdminManualReview)
      case Transact(Expire(now)) =>
        if (status.PaymentDetected? || status.PaymentConfirming?) && Due(c.rec.order.expiresAt, now)
        then Some(PaymentConfirmationLost) else None
      case Transact(Snap(snap, clash)) =>
        if && (status.PaymentExpired? || status.Cancelled?)
           && IsOwn(c.rec, snap) && snap.status.SnapSucceeded? && snap.paid && !clash
        then Some(YooKassaLatePayment) else None
      case Transact(SeeTon(seen, _, clash, _)) => SightingObjection(c.rec.order, seen, clash)
      case StartDelivery(t, hold) =>
        if t !in c.tasks && status.Paid? && !hold && MissesUsername(cfg, c.rec.order.info)
        then Some(RecipientUsernameMissing) else None
      case StartReconciliation(t) =>
        if && t !in c.tasks && !status.Completed? && !status.Refunded? && !status.PaymentFailed?
           && (!cfg.queuedProvider || c.rec.attempt.None? || c.rec.attempt.value.requestId.None?)
        then Some(ReconciliationDataMissing) else None
      case Apply(_, clash, stale) => if Applies(c, e) then AnswerObjection(status, AnswerIn(c, e), clash, stale) else None
      case _ => None
  }

  /** The circumstances under which the event brings the order into the status. */
  predicate LeadsTo(cfg: Settings, c: Cell, e: Event, target: OrderStatus) {
    match target
    case WaitingForPayment => LeadsToWaiting(c, e)
    case PaymentDetected => LeadsToDetected(c, e)
    case PaymentConfirming => LeadsToConfirming(cfg, c, e)
    case Paid => LeadsToPaid(cfg, c, e)
    case PurchaseProcessing => LeadsToProcessing(cfg, c, e)
    case StarsSending => LeadsToSending(c, e)
    case Completed => LeadsToCompleted(c, e)
    case WaitingForMerchantBalance => LeadsToBalance(c, e)
    case RefundRequired => LeadsToRefund(c, e)
    case Refunded => LeadsToRefunded(c, e)
    case PaymentExpired => LeadsToExpired(c, e)
    case PaymentFailed => LeadsToFailed(cfg, c, e)
    case Cancelled => LeadsToCancelled(c, e)
    case ManualReview => Objection(cfg, c, e).Some?
    case Created => false
    case PurchaseFailed => false
  }

  // ---------------------------------------------------------------- where an event leaves the order

  function SnapLanding(r: Rec, snap: Snapshot, clash: bool): OrderStatus {
    if !IsOwn(r, snap) || clash then r.order.status
    else
      match snap.status
      case SnapPending => r.order.status
      case SnapWaitingForCapture =>
        if r.order.status.WaitingForPayment? || r.order.status.PaymentDetected? then PaymentConfirming else r.order.status
      case SnapCanceled => if AwaitsMoney(r.order.status) then PaymentFailed else r.order.status
      case SnapSucceeded =>
        if !snap.paid then r.order.status
        else if AwaitsMoney(r.order.status) then Paid
        else if r.order.status.PaymentExpired? || r.order.status.Cancelled? then ManualReview
        else r.order.status
  }

  function SightingLanding(cfg: Settings, order: Order, seen: Sighting, now: int, clash: bool): OrderStatus {
    if SightingObjection(order, seen, clash).Some? then ManualReview
    else if order.payType != Some(TonPay) || !AwaitsMoney(order.status) || order.invoice.None? then order.status
    else if order.status.WaitingForPayment? then PaymentDetected
    else if order.status.PaymentDetected? then PaymentConfirming
    else if now - seen.timestamp >= cfg.confirmationSeconds then Paid
    else order.status
  }

  function AnswerLanding(status: OrderStatus, res: PurchaseResult, clash: bool, stale: bool): OrderStatus {
    if Pends(res) then if (status.PurchaseProcessing? || status.ManualReview?) && !clash then StarsSending else status
    else if AnswerObjection(status, res, clash, stale).Some? then ManualReview
    else if Delivers(res) then if (Buying(status) || status.ManualReview?) && !clash then Completed else status
    else if LacksBalance(res) then if Buying(status) then WaitingForMerchantBalance else status
    else if Refuses(res) && (Buying(status) || status.WaitingForMerchantBalance? || status.ManualReview?) then RefundRequired
    else status
  }

  function Landing(cfg: Settings, c: Cell, e: Event): OrderStatus {
    var r := c.rec;
    match e
    case Transact(Snap(snap, clash)) => SnapLanding(r, snap, clash)
    case Transact(SeeTon(seen, now, clash, _)) => SightingLanding(cfg, r.order, seen, now, clash)
    case Apply(_, clash, stale) => if Applies(c, e) then AnswerLanding(r.order.status, AnswerIn(c, e), clash, stale) else r.order.status
    case Transact(SetupTon(_, _, _, _)) => if LeadsToWaiting(c, e) then WaitingForPayment else r.order.status
    case StartCharge(_, _, _) => if LeadsToWaiting(c, e) then WaitingForPayment else r.order.status
    case Transact(Expire(_)) =>
      if LeadsToExpired(c, e) then PaymentExpired else if Objection(cfg, c, e).Some? then ManualReview else r.order.status
    case Transact(Cancel) => if LeadsToCancelled(c, e) then Cancelled else r.order.status
    case Transact(SyncRefundNotice(_)) => if LeadsToRefunded(c, e) then Refunded else r.order.status
    case Transact(ConfirmRefund) => if LeadsToRefunded(c, e) then Refunded else r.order.status
    case EndRefund(_, _, _) => if LeadsToRefunded(c, e) then Refunded else r.order.status
    case StartTest(_) => if LeadsToConfirming(cfg, c, e) then PaymentConfirming else r.order.status
    case EndTest(_, _) =>
      if LeadsToPaid(cfg, c, e) then Paid else if LeadsToFailed(cfg, c, e) then PaymentFailed else r.order.status
    case Approve(_) => if LeadsToProcessing(cfg, c, e) then PurchaseProcessing else r.order.status
    case StartDelivery(_, _) =>
      if LeadsToProcessing(cfg, c, e) then PurchaseProcessing
      else if Objection(cfg, c, e).Some? then ManualReview
      else r.order.status
    case _ => if Objection(cfg, c, e).Some? then ManualReview else r.order.status
  }

  // ---------------------------------------------------------------- the circumstances agree with that

  predicate LeadsThere(cfg: Settings, c: Cell, e: Event, target: OrderStatus) {
    LeadsTo(cfg, c, e, target) <==> target == Landing(cfg, c, e) && target != c.rec.order.status
  }

  lemma SnapLeads(cfg: Settings, c: Cell, e: Event, target: OrderStatus)
    requires e.Transact? && e.op.Snap?
    ensures LeadsThere(cfg, c, e, target)
  {
    hide IsOwn;
  }

  /** A hash is linked exactly once the transfer was seen. */
  predicate HashTellsSeen(order: Order) {
    && (order.tonHash.Some? ==> !order.status.WaitingForPayment?)
    && (order.payType == Some(TonPay) && (order.status.PaymentDetected? || order.status.PaymentConfirming?) ==>
          order.tonHash.Some?)
  }

  lemma SightingLeads(cfg: Settings, c: Cell, e: Event, target: OrderStatus)
    requires HashTellsSeen(c.rec.order) && e.Transact? && e.op.SeeTon?
    ensures LeadsThere(cfg, c, e, target)
  {
    hide InTime, UpperText;
  }

  lemma AnswerLeads(cfg: Settings, c: Cell, e: Event, target: OrderStatus)
    requires Applies(c, e)
    ensures LeadsThere(cfg, c, e, target)
  {
  }

  lemma RestLeads(cfg: Settings, c: Cell, e: Event, target: OrderStatus)
    requires !(e.Transact? && (e.op.Snap? || e.op.SeeTon?)) && !Applies(c, e)
    ensures LeadsThere(cfg, c, e, target)
  {
    hide IsOwn, ToWallet, ReportsRefund, MissesUsername, Due, SightingObjection, AnswerObjection;
  }

  // ---------------------------------------------------------------- and so do the transactions

  function Left(r: Rec, res: Result<Rec>): Rec {
    if res.Ok? then res.value else r
  }

  /** The rows after an event that leaves the order in this status, with this reason for a review. */
  predicate Lands(after: Rec, status: OrderStatus, reason: Option<Code>) {
    after.order.status == status && (reason.Some? ==> after.order.errorCode == reason)
  }

  lemma NamesTonIsUpper(text: string)
    ensures NamesTon(text) <==> UpperText(text) == "TON"
  {
    if |text| == 3 {
      var upper := UpperText(text);
      assert upper == [Upper(text[0]), Upper(text[1]), Upper(text[2])];
    }
  }

  lemma RouteIsWallet(order: Order, seen: Sighting)
    ensures OnRoute(order, seen) <==> ToWallet(order, seen)
  {
    NamesTonIsUpper(seen.currency);
    NamesTonIsUpper(seen.network);
    hide NamesTon, UpperText;
  }

  /** A confirmed payment never waits for its money. */
  predicate ConfirmedIsSettled(r: Rec) {
    Confirmed(r) ==> !AwaitsMoney(r.order.status)
  }

  lemma OpenSnapLands(r: Rec, snap: Snapshot, clash: bool)
    requires ConfirmedIsSettled(r) && (snap.status.SnapPending? || snap.status.SnapWaitingForCapture?)
    ensures Lands(Left(r, ApplySnapshot(r, snap, clash)), SnapLanding(r, snap, clash), None)
  {
    hide StatusNotes;
  }

  lemma CanceledLands(r: Rec, snap: Snapshot, clash: bool)
    requires ConfirmedIsSettled(r) && snap.status.SnapCanceled?
    ensures Lands(Left(r, ApplySnapshot(r, snap, clash)), SnapLanding(r, snap, clash), None)
  {
    hide StatusNotes;
  }

  lemma SuccessLands(r: Rec, snap: Snapshot, clash: bool)
    requires snap.status.SnapSucceeded?
    ensures
      var landing := SnapLanding(r, snap, clash);
      Lands(Left(r, ApplySnapshot(r, snap, clash)), landing,
            if landing.ManualReview? && !r.order.status.ManualReview? then Some(YooKassaLatePayment) else None)
  {
    hide StatusNotes;
  }

  lemma SnapLands(cfg: Settings, c: Cell, snap: Snapshot, clash: bool)
    requires ConfirmedIsSettled(c.rec)
    ensures
      var e := Transact(Snap(snap, clash));
      Lands(Left(c.rec, ApplySnapshot(c.rec, snap, clash)), Landing(cfg, c, e), Objection(cfg, c, e))
  {
    if snap.status.SnapSucceeded? { SuccessLands(c.rec, snap, clash); }
    else if snap.status.SnapCanceled? { CanceledLands(c.rec, snap, clash); }
    else { OpenSnapLands(c.rec, snap, clash); }
    hide ApplySnapshot, IsOwn;
  }

  /** What a sighting has to leave behind. */
  ghost predicate SightingLands(cfg: Settings, r: Rec, seen: Observation, now: int, clash: bool, stale: bool) {
    Lands(Left(r, RecordTonObservation(cfg, r, seen, now, clash, stale)), SightingLanding(cfg, r.order, seen, now, clash),
          SightingObjection(r.order, seen, clash))
  }

  lemma StrangeLands(cfg: Settings, r: Rec, seen: Observation, now: int, clash: bool, stale: bool)
    requires !AwaitsTon(r) || !ToWallet(r.order, seen)
    ensures SightingLands(cfg, r, seen, now, clash, stale)
  {
    RouteIsWallet(r.order, seen);
    hide StatusNotes, OnRoute, ToWallet, RecordDetection, SettleTon;
  }

  lemma FirstLands(cfg: Settings, r: Rec, seen: Observation, now: int, clash: bool, stale: bool)
    requires AwaitsTon(r) && HashTellsSeen(r.order) && r.payment.Some? && ToWallet(r.order, seen) && r.order.tonHash.None?
    ensures SightingLands(cfg, r, seen, now, clash, stale)
  {
    RouteIsWallet(r.order, seen);
    hide StatusNotes, OnRoute, ToWallet;
  }

  lemma OtherHashLands(cfg: Settings, r: Rec, seen: Observation, now: int, clash: bool, stale: bool)
    requires AwaitsTon(r) && ToWallet(r.order, seen) && Truthy(r.order.tonHash) && r.order.tonHash.value != seen.hash
    ensures SightingLands(cfg, r, seen, now, clash, stale)
  {
    RouteIsWallet(r.order, seen);
    hide StatusNotes, OnRoute, ToWallet, RecordDetection, SettleTon;
  }

  lemma AgainLands(cfg: Settings, r: Rec, seen: Observation, now: int, clash: bool, stale: bool)
    requires AwaitsTon(r) && HashTellsSeen(r.order) && ToWallet(r.order, seen) && r.order.tonHash == Some(seen.hash)
    ensures SightingLands(cfg, r, seen, now, clash, stale)
  {
    RouteIsWallet(r.order, seen);
    hide StatusNotes, OnRoute, ToWallet, RecordDetection;
  }

  lemma AnySightingLands(cfg: Settings, r: Rec, seen: Observation, now: int, clash: bool, stale: bool)
    requires HashTellsSeen(r.order) && (AwaitsTon(r) ==> r.payment.Some?) && (r.order.tonHash.Some? ==> r.order.tonHash.value != "")
    ensures SightingLands(cfg, r, seen, now, clash, stale)
  {
    hide SightingLands, ToWallet, HashTellsSeen, AwaitsTon;
    if !AwaitsTon(r) || !ToWallet(r.order, seen) { StrangeLands(cfg, r, seen, now, clash, stale); }
    else if r.order.tonHash.None? { FirstLands(cfg, r, seen, now, clash, stale); }
    else if r.order.tonHash.value != seen.hash { OtherHashLands(cfg, r, seen, now, clash, stale); }
    else { AgainLands(cfg, r, seen, now, clash, stale); }
  }

  /** Where orders with an attempt can stand. */
  predicate MayBeAnswered(status: OrderStatus) {
    || Buying(status) || status.Completed? || status.RefundRequired? || status.Refunded?
    || status.WaitingForMerchantBalance? || status.ManualReview?
  }

  predicate AnswerLands(r: Rec, res: PurchaseResult, clash: bool, stale: bool) {
    Lands(Left(r, ApplyResult(r, res, clash, stale)), AnswerLanding(r.order.status, res, clash, stale),
          AnswerObjection(r.order.status, res, clash, stale))
  }

  lemma QueuedLands(r: Rec, res: PurchaseResult, clash: bool, stale: bool)
    requires r.attempt.Some? && MayBeAnswered(r.order.status) && Pends(res)
    ensures AnswerLands(r, res, clash, stale)
  {
    hide StatusNotes, MarkSucceeded, MarkFailed, MarkWaitingForBalance;
  }

  lemma TakenLands(r: Rec, res: PurchaseResult, stale: bool)
    requires r.attempt.Some? && MayBeAnswered(r.order.status) && Delivers(res)
    ensures AnswerLands(r, res, true, stale)
  {
    hide StatusNotes, MarkQueued, MarkWaitingForBalance;
  }

  lemma DeliveredLands(r: Rec, res: PurchaseResult, stale: bool)
    requires r.attempt.Some? && MayBeAnswered(r.order.status) && Delivers(res)
    ensures AnswerLands(r, res, false, stale)
  {
    hide StatusNotes, MarkQueued, MarkWaitingForBalance, MarkFailed;
  }

  lemma FailureLands(r: Rec, res: PurchaseResult, clash: bool, stale: bool)
    requires r.attempt.Some? && MayBeAnswered(r.order.status) && !Pends(res) && !Delivers(res)
    ensures AnswerLands(r, res, clash, stale)
  {
    hide StatusNotes, MarkQueued, MarkSucceeded;
  }

  lemma AnyAnswerLands(r: Rec, res: PurchaseResult, clash: bool, stale: bool)
    requires r.attempt.Some? && MayBeAnswered(r.order.status)
    ensures AnswerLands(r, res, clash, stale)
  {
    hide AnswerLands, Pends, Delivers, MayBeAnswered;
    if Pends(res) { QueuedLands(r, res, clash, stale); }
    else if Delivers(res) && clash { TakenLands(r, res, stale); }
    else if Delivers(res) { DeliveredLands(r, res, stale); }
    else { FailureLands(r, res, clash, stale); }
  }

  ghost predicate EventLands(cfg: Settings, c: Cell, e: Event, after: Rec) {
    Lands(after, Landing(cfg, c, e), Objection(cfg, c, e))
  }

  lemma SetupLands(cfg: Settings, c: Cell, op: Op)
    requires op.SetupTon?
    ensures EventLands(cfg, c, Transact(op), Left(c.rec, Execute(cfg, c.rec, op)))
  {
    hide StatusNotes;
  }

  lemma ExpiryLands(cfg: Settings, c: Cell, op: Op)
    requires op.Expire?
    ensures EventLands(cfg, c, Transact(op), Left(c.rec, Execute(cfg, c.rec, op)))
  {
    hide StatusNotes;
  }

  lemma CancelLands(cfg: Settings, c: Cell, op: Op)
    requires op.Cancel?
    requires c.rec.order.status.Created? || c.rec.order.status.WaitingForPayment? ==> c.rec.order.tonHash.None?
    ensures EventLands(cfg, c, Transact(op), Left(c.rec, Execute(cfg, c.rec, op)))
  {
    hide StatusNotes;
  }

  lemma ReviewLands(cfg: Settings, c: Cell, op: Op)
    requires op.SendToReview? || op.ResendNotice?
    ensures EventLands(cfg, c, Transact(op), Left(c.rec, Execute(cfg, c.rec, op)))
  {
    hide StatusNotes;
  }

  lemma NoticeLands(cfg: Settings, c: Cell, op: Op)
    requires op.SyncRefundNotice?
    ensures EventLands(cfg, c, Transact(op), Left(c.rec, Execute(cfg, c.rec, op)))
  {
    hide StatusNotes;
  }

  lemma ConfirmationLands(cfg: Settings, c: Cell, op: Op)
    requires op.ConfirmRefund? && (c.rec.order.status.RefundRequired? ==> c.rec.payment.Some?)
    ensures EventLands(cfg, c, Transact(op), Left(c.rec, Execute(cfg, c.rec, op)))
  {
    hide StatusNotes;
  }

  /** What these lemmas need to know of well formed rows. */
  ghost predicate Regular(r: Rec) {
    && HashTellsSeen(r.order) && ConfirmedIsSettled(r)
    && (r.order.tonHash.Some? ==> r.order.tonHash.value != "" && !r.order.status.Created?)
    && (AwaitsTon(r) || r.order.status.RefundRequired? ==> r.payment.Some?)
    && (r.order.status.Created? ==> r.order.payType.None? && r.payment.None?)
    && (r.attempt.Some? ==>
          && MayBeAnswered(r.order.status)
          && (r.attempt.value.requestId.Some? ==> r.attempt.value.requestId.value != ""))
  }

  lemma WellFormedIsRegular(cfg: Settings, r: Rec)
    requires WellFormed(cfg, r)
    ensures Regular(r)
  {
  }

  lemma TransactionLands(cfg: Settings, c: Cell, op: Op)
    requires Regular(c.rec)
    ensures EventLands(cfg, c, Transact(op), Left(c.rec, Execute(cfg, c.rec, op)))
  {
    match op {
      case Snap(snap, clash) =>
        SnapLands(cfg, c, snap, clash);
        hide ApplySnapshot, SnapLanding;
      case SeeTon(seen, now, clash, stale) =>
        AnySightingLands(cfg, c.rec, seen, now, clash, stale);
        hide RecordTonObservation, SightingLanding, SightingObjection;
      case SetupTon(_, _, _, _) => SetupLands(cfg, c, op);
      case Expire(_) => ExpiryLands(cfg, c, op);
      case Cancel => CancelLands(cfg, c, op);
      case SyncRefundNotice(_) => NoticeLands(cfg, c, op);
      case ConfirmRefund => ConfirmationLands(cfg, c, op);
      case _ => ReviewLands(cfg, c, op);
    }
  }

  lemma ApplicationLands(cfg: Settings, c: Cell, e: Event)
    requires Regular(c.rec) && e.Apply? && e.task in c.tasks && c.tasks[e.task].Holding?
    ensures EventLands(cfg, c, e, Left(c.rec, ApplyResult(c.rec, c.tasks[e.task].result, e.clash, e.stale)))
  {
    if c.rec.attempt.Some? {
      AnyAnswerLands(c.rec, c.tasks[e.task].result, e.clash, e.stale);
    } else {
      assert ApplyResult(c.rec, c.tasks[e.task].result, e.clash, e.stale).Raise?;
    }
    hide ApplyResult, AnswerLanding, AnswerObjection;
  }

  /** Of a paid order the last gate asks for nothing but the username. */
  lemma DeliveryOpens(cfg: Settings, r: Rec, hold: bool)
    requires WellFormed(cfg, r)
    ensures
      var res := BeginDelivery(cfg, r, hold);
      var opens := r.order.status.Paid? && !hold;
      Lands(if res.Ok? then res.value.0 else r,
            if !opens then r.order.status else if MissesUsername(cfg, r.order.info) then ManualReview else PurchaseProcessing,
            if opens && MissesUsername(cfg, r.order.info) then Some(RecipientUsernameMissing) else None)
  {
    hide StatusNotes;
  }

  lemma DeliveryLands(cfg: Settings, c: Cell, t: nat, hold: bool)
    requires WellFormed(cfg, c.rec) && t !in c.tasks
    ensures EventLands(cfg, c, StartDelivery(t, hold), StepDelivery(cfg, c, t, hold).rec)
  {
    DeliveryOpens(cfg, c.rec, hold);
    hide BeginDelivery, WellFormed, MissesUsername, DeliveryRunning;
  }

  lemma ChargeLands(cfg: Settings, c: Cell, e: Event)
    requires Regular(c.rec) && e.StartCharge? && Enabled(cfg, c, e)
    ensures EventLands(cfg, c, e, Happen(cfg, c, e).rec)
  {
    hide StatusNotes;
  }

  lemma TestStarts(cfg: Settings, r: Rec)
    ensures
      var res := BeginTestConfirmation(cfg, r);
      var moves := cfg.testMode && r.order.status.WaitingForPayment? && Truthy(r.order.paymentId);
      if moves then res.Ok? && res.value.1 && res.value.0.order.status.PaymentConfirming? else res.Ok? ==> !res.value.1
  {
    hide StatusNotes;
  }

  lemma TestStartLands(cfg: Settings, c: Cell, e: Event)
    requires e.StartTest? && Enabled(cfg, c, e)
    ensures EventLands(cfg, c, e, Happen(cfg, c, e).rec)
  {
    TestStarts(cfg, c.rec);
    hide BeginTestConfirmation;
  }

  lemma TestEndLands(cfg: Settings, c: Cell, e: Event)
    requires e.EndTest? && Enabled(cfg, c, e)
    ensures EventLands(cfg, c, e, Happen(cfg, c, e).rec)
  {
    hide StatusNotes;
  }

  lemma ReconciliationLands(cfg: Settings, c: Cell, e: Event)
    requires Regular(c.rec) && e.StartReconciliation? && Enabled(cfg, c, e)
    ensures EventLands(cfg, c, e, Happen(cfg, c, e).rec)
  {
    hide StatusNotes;
  }

  lemma ApprovalLands(cfg: Settings, c: Cell, e: Event)
    requires Regular(c.rec) && e.Approve? && Enabled(cfg, c, e)
    ensures EventLands(cfg, c, e, Happen(cfg, c, e).rec)
  {
    hide StatusNotes;
  }

  lemma RefundLands(cfg: Settings, c: Cell, e: Event)
    requires (e.StartRefund? || e.EndRefund?) && Enabled(cfg, c, e)
    ensures EventLands(cfg, c, e, Happen(cfg, c, e).rec)
  {
    hide StatusNotes;
  }

  predicate IsMessage(e: Event) {
    || e.SendCharge? || e.SendPurchase? || e.AnswerPurchase? || e.AnswerCheck? || e.ReadForRetry? || e.SendRefund?
    || e.ProviderDelivers? || e.Crash?
  }

  lemma MessageLands(cfg: Settings, c: Cell, e: Event)
    requires IsMessage(e)
    ensures EventLands(cfg, c, e, c.rec)
    ensures Enabled(cfg, c, e) ==> Happen(cfg, c, e).rec == c.rec
  {
    hide IsDefiniteFailure, Drop;
  }

  lemma NothingLands(cfg: Settings, c: Cell, e: Event)
    requires !Enabled(cfg, c, e)
    ensures EventLands(cfg, c, e, c.rec)
  {
  }

  lemma CommittedAsLeft(cfg: Settings, c: Cell, e: Event)
    ensures e.Transact? ==> Step(cfg, c, e).rec == Left(c.rec, Execute(cfg, c.rec, e.op))
    ensures e.Apply? && e.task in c.tasks && c.tasks[e.task].Holding? ==>
              Step(cfg, c, e).rec == Left(c.rec, ApplyResult(c.rec, c.tasks[e.task].result, e.clash, e.stale))
    ensures e.StartDelivery? && e.task !in c.tasks ==> Step(cfg, c, e).rec == StepDelivery(cfg, c, e.task, e.hold).rec
    ensures !Enabled(cfg, c, e) ==> Step(cfg, c, e).rec == c.rec
  {
    hide Execute, ApplyResult, StepDelivery, IsQueued;
  }

  lemma StepLands(cfg: Settings, c: Cell, e: Event)
    requires WellFormed(cfg, c.rec)
    ensures EventLands(cfg, c, e, Step(cfg, c, e).rec)
  {
    WellFormedIsRegular(cfg, c.rec);
    CommittedAsLeft(cfg, c, e);
    hide EventLands, WellFormed, Regular, Happen, Execute, ApplyResult;
    if !Enabled(cfg, c, e) {
      NothingLands(cfg, c, e);
    } else {
      match e {
        case Transact(op) => TransactionLands(cfg, c, op);
        case Apply(_, _, _) => ApplicationLands(cfg, c, e);
        case StartDelivery(t, hold) => DeliveryLands(cfg, c, t, hold);
        case StartCharge(_, _, _) => ChargeLands(cfg, c, e);
        case StartTest(_) => TestStartLands(cfg, c, e);
        case EndTest(_, _) => TestEndLands(cfg, c, e);
        case StartReconciliation(_) => ReconciliationLands(cfg, c, e);
        case Approve(_) => ApprovalLands(cfg, c, e);
        case StartRefund(_) => RefundLands(cfg, c, e);
        case EndRefund(_, _, _) => RefundLands(cfg, c, e);
        case _ => MessageLands(cfg, c, e);
      }
    }
  }

  lemma EventLeads(cfg: Settings, c: Cell, e: Event, target: OrderStatus)
    requires WellFormed(cfg, c.rec)
    ensures LeadsThere(cfg, c, e, target)
  {
    WellFormedIsRegular(cfg, c.rec);
    hide WellFormed, LeadsThere, Applies, HashTellsSeen;
    if e.Transact? && e.op.Snap? { SnapLeads(cfg, c, e, target); }
    else if e.Transact? && e.op.SeeTon? { SightingLeads(cfg, c, e, target); }
    else if Applies(c, e) { AnswerLeads(cfg, c, e, target); }
    else { RestLeads(cfg, c, e, target); }
  }

  // ---------------------------------------------------------------- main result

  /**
   In every well formed state, an event brings the order into a status it did not have exactly under the circumstances
   listed for that status, and a review tells its reason.
   */
  lemma StepEnters(cfg: Settings, c: Cell, e: Event, target: OrderStatus)
    requires WellFormed(cfg, c.rec)
    ensures
      var after := Step(cfg, c, e).rec;
      && (c.rec.order.status != target && after.order.status == target <==> LeadsTo(cfg, c, e, target))
      && (Objection(cfg, c, e).Some? ==> after.order.errorCode == Objection(cfg, c, e))
  {
    hide Step, LeadsTo, Objection, WellFormed, Landing;
    StepLands(cfg, c, e);
    EventLeads(cfg, c, e, target);
  }
}
