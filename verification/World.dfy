/** All orders of the shop: unique keys tie them together, everything else is one order's affair. */
module World {
  import opened Domain
  import opened Ledger
  import opened OrderFlow
  import opened OrderInvariants
  import opened OrderSafety
  import opened Protocol
  import opened OrderTheorems

  type Shop = map<nat, Cell>

  datatype Happening =
    | Create(id: nat, info: OrderInfo, testPaymentId: string)
    | At(id: nat, event: Event)

  // ---------------------------------------------------------------- unique columns

  function HashOf(r: Rec): Option<string> {
    if r.payment.Some? then r.payment.value.txHash else None
  }

  function RequestOf(r: Rec): Option<string> {
    if r.attempt.Some? then r.attempt.value.requestId else None
  }

  function StarsTxOf(r: Rec): Option<string> {
    if r.attempt.Some? then r.attempt.value.txId else None
  }

  /** What a provider calls the payment; for a TON payment it is the payment comment as well. */
  function ReferenceOf(r: Rec): Option<string> {
    if r.payment.Some? && r.payment.value.reference.ProviderReference? then Some(r.payment.value.reference.id) else None
  }

  function RefundIdOf(r: Rec): Option<string> {
    if r.payment.Some? then r.payment.value.refund.id else None
  }

  /** What the shop knows of the refund; not a unique column, but written by the same events. */
  function RefundStateOf(r: Rec): Option<RefundStatus> {
    if r.payment.Some? then r.payment.value.refund.status else None
  }

  function KeyOf(r: Rec): Option<Uuid> {
    if r.payment.Some? then r.payment.value.terms.idempotencyKey else None
  }

  /** The unique columns that providers and buyers fill have no value in common. */
  predicate ColumnsApart(r: Rec, q: Rec) {
    && (HashOf(r).Some? ==> HashOf(r) != HashOf(q))
    && (RequestOf(r).Some? ==> RequestOf(r) != RequestOf(q))
    && (StarsTxOf(r).Some? ==> StarsTxOf(r) != StarsTxOf(q))
    && (ReferenceOf(r).Some? ==> ReferenceOf(r) != ReferenceOf(q))
    && (RefundIdOf(r).Some? ==> RefundIdOf(r) != RefundIdOf(q))
  }

  /** The unique columns of two orders and of their payments and attempts have no value in common. */
  predicate Apart(r: Rec, q: Rec) {
    && ColumnsApart(r, q)
    && r.order.info.number != q.order.info.number
    && (KeyOf(r).Some? ==> KeyOf(r) != KeyOf(q))
  }

  ghost predicate Distinct(shop: Shop) {
    forall i, j :: i in shop && j in shop && i != j ==> Apart(shop[i].rec, shop[j].rec)
  }

  /** The value the event wants to write into a unique column belongs to this other order. */
  predicate Taken(c: Cell, e: Event, other: Rec) {
    match e
    case Transact(SeeTon(seen, _, _, _)) => HashOf(other) == Some(seen.hash)
    case Transact(Snap(snap, _)) => ReferenceOf(other) == Some(snap.paymentId)
    case Transact(SetupTon(_, comment, _, _)) => ReferenceOf(other) == Some(comment)
    case Apply(t, _, _) =>
      && t in c.tasks && c.tasks[t].Holding?
      && var result := c.tasks[t].result;
      if IsQueued(result) then RequestOf(other) == result.requestId
      else Truthy(result.txId) && StarsTxOf(other) == result.txId
    case EndRefund(_, refund, _) => RefundIdOf(other) == Some(refund.id)
    case _ => false
  }

  ghost predicate Clashes(shop: Shop, id: nat, e: Event)
    requires id in shop
  {
    exists j :: j in shop && j != id && Taken(shop[id], e, shop[j].rec)
  }

  /** The database, not the caller, decides whether a unique key is violated. */
  function Resolve(e: Event, clash: bool): Event {
    match e
    case Transact(SeeTon(seen, now, _, stale)) => Transact(SeeTon(seen, now, clash, stale))
    case Transact(Snap(snap, _)) => Transact(Snap(snap, clash))
    case Apply(t, _, stale) => Apply(t, clash, stale)
    case EndRefund(t, refund, _) => EndRefund(t, refund, clash)
    case _ => e
  }

  ghost predicate NumberTaken(shop: Shop, number: string) {
    exists j :: j in shop && shop[j].rec.order.info.number == number
  }

  ghost predicate ReferenceTaken(shop: Shop, reference: string) {
    exists j :: j in shop && ReferenceOf(shop[j].rec) == Some(reference)
  }

  /** Inserting the order, and in test mode its payment, violates a unique key. */
  ghost predicate CreationClashes(cfg: Settings, shop: Shop, number: string, testPaymentId: string) {
    NumberTaken(shop, number) || (cfg.testMode && ReferenceTaken(shop, testPaymentId))
  }

  /** A transaction whose insert violates a unique key leaves nothing behind. */
  ghost predicate Refused(shop: Shop, id: nat, e: Event)
    requires id in shop
  {
    e.Transact? && e.op.SetupTon? && Clashes(shop, id, e)
  }

  ghost function ShopStep(cfg: Settings, shop: Shop, h: Happening): Shop {
    match h
    case Create(id, info, testPaymentId) =>
      if id in shop || !ValidRequest(cfg, info) || CreationClashes(cfg, shop, info.number, testPaymentId) then shop
      else shop[id := Begin(cfg, info, testPaymentId)]
    case At(id, e) =>
      if id !in shop || Refused(shop, id, e) then shop
      else shop[id := Step(cfg, shop[id], Resolve(e, Clashes(shop, id, e)))]
  }

  ghost function ShopRun(cfg: Settings, hs: seq<Happening>): Shop {
    if hs == [] then map[] else ShopStep(cfg, ShopRun(cfg, hs[..|hs| - 1]), hs[|hs| - 1])
  }

  // ---------------------------------------------------------------- every order is one order

  ghost predicate IsReached(cfg: Settings, c: Cell, info: OrderInfo, testPaymentId: string, events: seq<Event>) {
    ValidRequest(cfg, info) && c == Reach(cfg, info, testPaymentId, events)
  }

  /** Each order of a reachable shop is the result of a run of its own, so that every theorem about runs applies. */
  lemma {:induction false} OrdersAreReached(cfg: Settings, hs: seq<Happening>, id: nat)
    requires id in ShopRun(cfg, hs)
    ensures exists info, testPaymentId, events :: IsReached(cfg, ShopRun(cfg, hs)[id], info, testPaymentId, events)
  {
    var before := ShopRun(cfg, hs[..|hs| - 1]);
    var h := hs[|hs| - 1];
    if h.Create? && h.id == id && id !in before {
      assert IsReached(cfg, ShopRun(cfg, hs)[id], h.info, h.testPaymentId, []);
    } else {
      OrdersAreReached(cfg, hs[..|hs| - 1], id);
      var info, testPaymentId, events :| IsReached(cfg, before[id], info, testPaymentId, events);
      if h.At? && h.id == id && !Refused(before, id, h.event) {
        var e := Resolve(h.event, Clashes(before, id, h.event));
        assert (events + [e])[..|events|] == events;
        assert IsReached(cfg, ShopRun(cfg, hs)[id], info, testPaymentId, events + [e]);
      } else {
        assert IsReached(cfg, ShopRun(cfg, hs)[id], info, testPaymentId, events);
      }
    }
  }

  // ---------------------------------------------------------------- unique columns stay unique

  function NewHash(e: Event): Option<string> {
    if e.Transact? && e.op.SeeTon? && !e.op.clash then Some(e.op.seen.hash) else None
  }

  function NewReference(e: Event): Option<string> {
    if e.Transact? && e.op.Snap? && !e.op.clash then Some(e.op.snap.paymentId)
    else if e.Transact? && e.op.SetupTon? then Some(e.op.comment)
    else None
  }

  function NewRefundId(e: Event): Option<string> {
    if e.EndRefund? && !e.clash then Some(e.refund.id) else None
  }

  /** Only a report about the stored payment and its full amount tells how the refund stands. */
  function NewRefundState(c: Cell, e: Event): Option<RefundStatus> {
    if && e.EndRefund? && !e.clash && e.task in c.tasks && c.tasks[e.task].RefundSent?
       && e.refund.currency == "RUB" && e.refund.amount == c.tasks[e.task].call.amount
       && ProviderReference(e.refund.paymentId) == c.tasks[e.task].call.paymentId
    then Some(e.refund.status)
    else if && e.Transact? && e.op.SyncRefundNotice? && c.rec.payment.Some? && RefundIdOf(c.rec) == Some(e.op.refund.id)
            && e.op.refund.currency == "RUB" && e.op.refund.amount == c.rec.payment.value.terms.expected
            && ProviderReference(e.op.refund.paymentId) == c.rec.payment.value.reference
    then Some(e.op.refund.status)
    else None
  }

  function NewRequest(c: Cell, e: Event): Option<string> {
    if e.Apply? && !e.clash && e.task in c.tasks && c.tasks[e.task].Holding? && IsQueued(c.tasks[e.task].result) then
      c.tasks[e.task].result.requestId
    else None
  }

  function NewStarsTx(c: Cell, e: Event): Option<string> {
    if && e.Apply? && !e.clash && e.task in c.tasks && c.tasks[e.task].Holding?
       && !IsQueued(c.tasks[e.task].result) && Truthy(c.tasks[e.task].result.txId)
    then c.tasks[e.task].result.txId
    else None
  }

  /** A unique column keeps its value, or takes the one that the event brings without a clash. */
  predicate Grows<T(==)>(before: Option<T>, after: Option<T>, brought: Option<T>) {
    after == before || (brought.Some? && after == brought)
  }

  predicate ColumnsGrow(c: Cell, e: Event, after: Rec) {
    && Grows(HashOf(c.rec), HashOf(after), NewHash(e))
    && Grows(ReferenceOf(c.rec), ReferenceOf(after), NewReference(e))
    && Grows(RefundIdOf(c.rec), RefundIdOf(after), NewRefundId(e))
    && Grows(RefundStateOf(c.rec), RefundStateOf(after), NewRefundState(c, e))
    && Grows(RequestOf(c.rec), RequestOf(after), NewRequest(c, e))
    && Grows(StarsTxOf(c.rec), StarsTxOf(after), NewStarsTx(c, e))
  }

  lemma SettledKeepsRows(cfg: Settings, r: Rec, seen: Observation, now: int)
    requires r.order.invoice.Some? && r.payment.Some?
    ensures var res := SettleTon(cfg, r, seen, now); res.Ok? ==> SameButStatus(r, res.value)
  {
  }

  lemma ReviewsKeepRows(r: Rec, code: Code)
    requires r.payment.Some?
    ensures Review(r, code).Ok? ==> SameButStatus(r, Review(r, code).value)
    ensures ReviewPayment(r, code).Ok? ==> SameButStatus(r, ReviewPayment(r, code).value)
  {
  }

  /** Only the hash, the received amount and the status of the payment row may differ. */
  predicate SameButSighting(r: Rec, after: Rec, brought: Option<string>) {
    && after.attempt == r.attempt
    && (r.payment.Some? <==> after.payment.Some?)
    && (r.payment.Some? ==>
          && after.payment.value.terms == r.payment.value.terms
          && after.payment.value.reference == r.payment.value.reference
          && after.payment.value.refund == r.payment.value.refund)
    && Grows(HashOf(r), HashOf(after), brought)
  }

  lemma DetectionKeepsRows(r: Rec, hash: string, amount: int, clash: bool, stale: bool)
    requires r.payment.Some?
    ensures
      var res := RecordDetection(r, hash, amount, clash, stale);
      res.Ok? && res.value.Some? ==>
        && !clash && SameButSighting(r, res.value.value, Some(hash))
        && res.value.value.payment.Some? && res.value.value.payment.value.txHash == Some(hash)
        && res.value.value.order.invoice == r.order.invoice
  {
  }

  lemma SameStatusSighting(r: Rec, after: Rec, last: Rec, brought: Option<string>)
    requires SameButSighting(r, after, brought) && SameButStatus(after, last)
    ensures SameButSighting(r, last, brought)
  {
  }

  lemma SameSighting(r: Rec, brought: Option<string>)
    ensures SameButSighting(r, r, brought)
  {
  }

  lemma SeenKeepsRows(cfg: Settings, r: Rec, seen: Observation, now: int, clash: bool, stale: bool)
    requires AwaitsTon(r) ==> r.payment.Some?
    ensures var res := RecordTonObservation(cfg, r, seen, now, clash, stale);
            res.Ok? ==> SameButSighting(r, res.value, if clash then None else Some(seen.hash))
  {
    var brought := if clash then None else Some(seen.hash);
    hide Review, ReviewPayment, SettleTon, RecordDetection, SameButSighting, SameButStatus;
    SameSighting(r, brought);
    var res := RecordTonObservation(cfg, r, seen, now, clash, stale);
    if AwaitsTon(r) && res.Ok? {
      ReviewsKeepRows(r, PaymentRouteMismatch);
      ReviewsKeepRows(r, DuplicatePaymentTransaction);
      ReviewsKeepRows(r, MultiplePaymentTransactions);
      SettledKeepsRows(cfg, r, seen, now);
      DetectionKeepsRows(r, seen.hash, seen.amount, clash, stale);
      var linked := RecordDetection(r, seen.hash, seen.amount, clash, stale);
      if OnRoute(r.order, seen) && !Truthy(r.order.tonHash) && linked.value.Some? {
        SettledKeepsRows(cfg, linked.value.value, seen, now);
        SameStatusSighting(r, linked.value.value, res.value, brought);
      } else {
        SameStatusSighting(r, r, res.value, brought);
      }
    }
  }

  lemma SeenColumnsGrow(cfg: Settings, c: Cell, op: Op)
    requires WellFormed(cfg, c.rec) && op.SeeTon?
    ensures var res := Execute(cfg, c.rec, op); res.Ok? ==> ColumnsGrow(c, Transact(op), res.value)
  {
    assert AwaitsTon(c.rec) ==> c.rec.payment.Some?;
    hide WellFormed, RecordTonObservation;
    SeenKeepsRows(cfg, c.rec, op.seen, op.now, op.clash, op.stale);
  }

  lemma AdvanceKeepsRows(r: Rec, source: OrderStatus, target: OrderStatus, code: Option<Code>)
    ensures Advance(r, source, target).Ok? ==>
              && Advance(r, source, target).value.payment == r.payment
              && Advance(r, source, target).value.attempt == r.attempt
    ensures Transition(r, target, code).Ok? ==>
              && Transition(r, target, code).value.payment == r.payment
              && Transition(r, target, code).value.attempt == r.attempt
  {
  }

  /** Only the status of the payment row differs. */
  predicate SameButStatus(r: Rec, after: Rec) {
    && after.attempt == r.attempt
    && r.payment.Some? && after.payment.Some?
    && after.payment.value == r.payment.value.(status := after.payment.value.status)
  }

  lemma YooStatusKeepsRows(r: Rec, snap: Snapshot)
    requires r.payment.Some?
    ensures var res := TransitionYooStatus(r, snap); res.Ok? ==> SameButStatus(r, res.value)
  {
    hide Transition, Advance;
    AdvanceKeepsRows(r, WaitingForPayment, PaymentDetected, None);
    AdvanceKeepsRows(r, PaymentDetected, PaymentConfirming, None);
    var detected := Advance(r, WaitingForPayment, PaymentDetected);
    if detected.Ok? {
      AdvanceKeepsRows(detected.value, PaymentDetected, PaymentConfirming, None);
      var confirming := Advance(detected.value, PaymentDetected, PaymentConfirming);
      if confirming.Ok? {
        AdvanceKeepsRows(SetPaymentStatus(confirming.value, PaySucceeded), PaymentConfirming, Paid, None);
      }
    }
    var failing := Advance(r, PaymentDetected, PaymentConfirming);
    if failing.Ok? {
      AdvanceKeepsRows(SetPaymentStatus(failing.value, PayCanceled), Created, PaymentFailed, Some(YooKassaPaymentCanceled));
    }
    AdvanceKeepsRows(SetPaymentStatus(r, PaySucceeded), Created, ManualReview, Some(YooKassaLatePayment));
  }

  lemma SnapshotColumnsGrow(cfg: Settings, c: Cell, op: Op)
    requires op.Snap?
    ensures var res := Execute(cfg, c.rec, op); res.Ok? ==> ColumnsGrow(c, Transact(op), res.value)
  {
    if Execute(cfg, c.rec, op).Ok? {
      YooStatusKeepsRows(Synced(c.rec, op.snap), op.snap);
      hide TransitionYooStatus;
    }
  }

  lemma TransactionColumnsGrow(cfg: Settings, c: Cell, op: Op)
    requires WellFormed(cfg, c.rec)
    ensures var res := Execute(cfg, c.rec, op); res.Ok? ==> ColumnsGrow(c, Transact(op), res.value)
  {
    hide Execute, ColumnsGrow, WellFormed;
    if op.SeeTon? {
      SeenColumnsGrow(cfg, c, op);
    } else if op.Snap? {
      SnapshotColumnsGrow(cfg, c, op);
    } else if op.SetupTon? {
      SetupColumnsGrow(cfg, c, op);
    } else if op.SyncRefundNotice? {
      NoticeColumnsGrow(cfg, c, op);
    } else {
      OtherKeepsColumns(cfg, c.rec, op);
      if Execute(cfg, c.rec, op).Ok? { SameColumnsStay(c, Transact(op), Execute(cfg, c.rec, op).value); }
    }
  }

  predicate SameColumns(r: Rec, after: Rec) {
    && HashOf(after) == HashOf(r) && ReferenceOf(after) == ReferenceOf(r) && RefundIdOf(after) == RefundIdOf(r)
    && RequestOf(after) == RequestOf(r) && StarsTxOf(after) == StarsTxOf(r) && RefundStateOf(after) == RefundStateOf(r)
  }

  lemma SameColumnsStay(c: Cell, e: Event, after: Rec)
    requires SameColumns(c.rec, after)
    ensures ColumnsGrow(c, e, after)
  {
  }

  /** Only an order without a payment row gets one. */
  lemma SetupColumnsGrow(cfg: Settings, c: Cell, op: Op)
    requires WellFormed(cfg, c.rec) && op.SetupTon?
    ensures var res := Execute(cfg, c.rec, op); res.Ok? ==> ColumnsGrow(c, Transact(op), res.value)
  {
    assert c.rec.order.status.Created? ==> c.rec.payment.None?;
    hide StatusNotes, WellFormed;
  }

  lemma ClosingKeepsColumns(r: Rec, now: int)
    ensures var res := ExpireIfNeeded(r, now); res.Ok? ==> SameColumns(r, res.value)
    ensures var res := CancelOrder(r); res.Ok? ==> SameColumns(r, res.value)
    ensures var res := AdminReview(r); res.Ok? ==> SameColumns(r, res.value)
    ensures SameColumns(r, Resend(r))
  {
    hide StatusNotes;
  }

  lemma ConfirmationKeepsColumns(r: Rec)
    ensures var res := MarkRefunded(r); res.Ok? ==> SameColumns(r, res.value)
  {
    hide StatusNotes;
  }

  lemma NoticeColumnsGrow(cfg: Settings, c: Cell, op: Op)
    requires op.SyncRefundNotice?
    ensures var res := Execute(cfg, c.rec, op); res.Ok? ==> ColumnsGrow(c, Transact(op), res.value)
  {
    hide StatusNotes;
  }

  lemma OtherKeepsColumns(cfg: Settings, r: Rec, op: Op)
    requires !op.SeeTon? && !op.Snap? && !op.SetupTon? && !op.SyncRefundNotice?
    ensures var res := Execute(cfg, r, op); res.Ok? ==> SameColumns(r, res.value)
  {
    hide ExpireIfNeeded, CancelOrder, AdminReview, Resend, MarkRefunded, SameColumns;
    match op
    case Expire(now) => ClosingKeepsColumns(r, now);
    case ConfirmRefund => ConfirmationKeepsColumns(r);
    case _ => ClosingKeepsColumns(r, 0);
  }

  lemma ChargeKeepsColumns(r: Rec, now: int, expiresAt: int)
    ensures var res := InitiateYoo(r, now, expiresAt); res.Ok? ==> SameColumns(r, res.value.0)
  {
    hide StatusNotes;
  }

  lemma TestKeepsColumns(cfg: Settings, r: Rec, succeeded: bool)
    ensures var res := BeginTestConfirmation(cfg, r); res.Ok? ==> SameColumns(r, res.value.0)
    ensures var res := EndTestConfirmation(r, succeeded); res.Ok? ==> SameColumns(r, res.value)
  {
    hide StatusNotes;
  }

  lemma PaymentColumnsStay(cfg: Settings, c: Cell, e: Event)
    requires Enabled(cfg, c, e) && (e.StartCharge? || e.StartTest? || e.EndTest?)
    ensures ColumnsGrow(c, e, Happen(cfg, c, e).rec)
  {
    ChargeKeepsColumns(c.rec, if e.StartCharge? then e.now else 0, if e.StartCharge? then e.expiresAt else 0);
    TestKeepsColumns(cfg, c.rec, e.EndTest? && e.succeeded);
    hide InitiateYoo, BeginTestConfirmation, EndTestConfirmation, ColumnsGrow;
    assert SameColumns(c.rec, c.rec);
    hide SameColumns;
    SameColumnsStay(c, e, Happen(cfg, c, e).rec);
  }

  /** What applying an answer may write into the columns of the attempt. */
  predicate AnswerGrows(r: Rec, res: PurchaseResult, clash: bool, after: Rec) {
    && Grows(RequestOf(r), RequestOf(after), if IsQueued(res) && !clash then res.requestId else None)
    && Grows(StarsTxOf(r), StarsTxOf(after), if !IsQueued(res) && Truthy(res.txId) && !clash then res.txId else None)
    && after.payment == r.payment
  }

  lemma QueuedGrows(r: Rec, res: PurchaseResult, clash: bool, stale: bool)
    requires IsQueued(res)
    ensures var after := ApplyResult(r, res, clash, stale); after.Ok? ==> AnswerGrows(r, res, clash, after.value)
  {
    hide StatusNotes, MarkSucceeded, MarkFailed, MarkWaitingForBalance, Advance;
  }

  lemma CompletionGrows(r: Rec, attempt: Attempt, txId: string, clash: bool, stale: bool)
    requires r.attempt == Some(attempt)
    ensures
      var after := MarkSucceeded(r, attempt, txId, clash, stale);
      after.Ok? ==>
        && after.value.payment == r.payment && RequestOf(after.value) == RequestOf(r)
        && Grows(StarsTxOf(r), StarsTxOf(after.value), if clash then None else Some(txId))
  {
    hide StatusNotes;
  }

  lemma SuccessGrows(r: Rec, res: PurchaseResult, clash: bool, stale: bool)
    requires !IsQueued(res) && res.succeeded
    ensures var after := ApplyResult(r, res, clash, stale); after.Ok? ==> AnswerGrows(r, res, clash, after.value)
  {
    hide StatusNotes, MarkSucceeded;
    if r.attempt.Some? {
      var sending := Advance(r, PurchaseProcessing, StarsSending);
      if sending.Ok? && Truthy(res.txId) {
        CompletionGrows(sending.value, sending.value.attempt.value, res.txId.value, clash, stale);
      }
    }
  }

  lemma FailureGrows(r: Rec, res: PurchaseResult, clash: bool, stale: bool)
    requires !IsQueued(res) && !res.succeeded
    ensures var after := ApplyResult(r, res, clash, stale); after.Ok? ==> AnswerGrows(r, res, clash, after.value)
  {
    hide StatusNotes, MarkSucceeded, MarkQueued;
  }

  lemma AnswerKeepsRows(r: Rec, res: PurchaseResult, clash: bool, stale: bool)
    ensures var after := ApplyResult(r, res, clash, stale); after.Ok? ==> AnswerGrows(r, res, clash, after.value)
  {
    hide ApplyResult, AnswerGrows;
    if IsQueued(res) { QueuedGrows(r, res, clash, stale); }
    else if res.succeeded { SuccessGrows(r, res, clash, stale); }
    else { FailureGrows(r, res, clash, stale); }
  }

  lemma AnswerColumnsGrow(cfg: Settings, c: Cell, e: Event)
    requires Enabled(cfg, c, e) && e.Apply?
    ensures ColumnsGrow(c, e, Happen(cfg, c, e).rec)
  {
    AnswerKeepsRows(c.rec, c.tasks[e.task].result, e.clash, e.stale);
    hide ApplyResult;
  }

  lemma DeliveryKeepsColumns(cfg: Settings, r: Rec, hold: bool)
    ensures var res := BeginDelivery(cfg, r, hold); res.Ok? ==> SameColumns(r, res.value.0)
  {
    hide PurchaseValidationError;
  }

  lemma PurchaseKeepsColumns(cfg: Settings, r: Rec)
    ensures var res := BeginReconciliation(cfg, r); res.Ok? ==> SameColumns(r, res.value.0)
    ensures var res := ApproveBalanceRetry(r); res.Ok? ==> SameColumns(r, res.value)
    ensures var res := BeginRefund(r); res.Ok? ==> SameColumns(r, res.value.0)
  {
  }

  lemma DeliveryColumnsStay(cfg: Settings, c: Cell, e: Event)
    requires e.StartDelivery?
    ensures ColumnsGrow(c, e, StepDelivery(cfg, c, e.task, e.hold).rec)
  {
    DeliveryKeepsColumns(cfg, c.rec, e.hold);
    assert SameColumns(c.rec, c.rec);
    hide BeginDelivery, ColumnsGrow, SameColumns;
    SameColumnsStay(c, e, StepDelivery(cfg, c, e.task, e.hold).rec);
  }

  lemma PurchaseColumnsStay(cfg: Settings, c: Cell, e: Event)
    requires Enabled(cfg, c, e) && (e.StartDelivery? || e.StartReconciliation? || e.Approve? || e.StartRefund?)
    ensures ColumnsGrow(c, e, Happen(cfg, c, e).rec)
  {
    if e.StartDelivery? {
      hide StepDelivery, ColumnsGrow;
      DeliveryColumnsStay(cfg, c, e);
    } else {
      PurchaseKeepsColumns(cfg, c.rec);
      assert SameColumns(c.rec, c.rec);
      hide BeginReconciliation, ApproveBalanceRetry, BeginRefund, ColumnsGrow, SameColumns, StepDelivery;
      SameColumnsStay(c, e, Happen(cfg, c, e).rec);
    }
  }

  lemma RefundColumnsGrow(cfg: Settings, c: Cell, e: Event)
    requires Enabled(cfg, c, e) && e.EndRefund?
    ensures ColumnsGrow(c, e, Happen(cfg, c, e).rec)
  {
  }

  lemma IdleColumnsStay(c: Cell, e: Event)
    ensures ColumnsGrow(c, e, c.rec)
  {
  }

  lemma StepColumnsGrow(cfg: Settings, c: Cell, e: Event)
    requires WellFormed(cfg, c.rec)
    ensures ColumnsGrow(c, e, Step(cfg, c, e).rec)
  {
    hide WellFormed, ColumnsGrow, Execute;
    IdleColumnsStay(c, e);
    if Enabled(cfg, c, e) {
      match e {
        case Transact(op) => TransactionColumnsGrow(cfg, c, op);
        case Apply(_, _, _) => AnswerColumnsGrow(cfg, c, e);
        case StartCharge(_, _, _) => PaymentColumnsStay(cfg, c, e);
        case StartTest(_) => PaymentColumnsStay(cfg, c, e);
        case EndTest(_, _) => PaymentColumnsStay(cfg, c, e);
        case StartDelivery(_, _) => PurchaseColumnsStay(cfg, c, e);
        case StartReconciliation(_) => PurchaseColumnsStay(cfg, c, e);
        case Approve(_) => PurchaseColumnsStay(cfg, c, e);
        case StartRefund(_) => PurchaseColumnsStay(cfg, c, e);
        case EndRefund(_, _, _) => RefundColumnsGrow(cfg, c, e);
        case _ => assert Happen(cfg, c, e).rec == c.rec;
      }
    }
  }

  lemma GrowthStaysApart(c: Cell, e: Event, after: Rec, other: Rec, clash: bool)
    requires ColumnsApart(c.rec, other) && ColumnsApart(other, c.rec)
    requires Taken(c, e, other) ==> clash && !(e.Transact? && e.op.SetupTon?)
    requires ColumnsGrow(c, Resolve(e, clash), after)
    ensures ColumnsApart(after, other) && ColumnsApart(other, after)
  {
    hide HashOf, ReferenceOf, RefundIdOf, RequestOf, StarsTxOf, RefundStateOf, NewRefundState;
  }

  /** A payment's key is computed from the number of its order. */
  lemma KeyNamesOrder(cfg: Settings, r: Rec)
    requires WellFormed(cfg, r)
    ensures KeyOf(r).Some? ==> KeyOf(r).value == ChargeKey(r.order.info.number)
  {
  }

  lemma NumbersKeepApart(cfg: Settings, r: Rec, q: Rec)
    requires WellFormed(cfg, r) && WellFormed(cfg, q)
    requires r.order.info.number != q.order.info.number && ColumnsApart(r, q) && ColumnsApart(q, r)
    ensures Apart(r, q) && Apart(q, r)
  {
    KeyNamesOrder(cfg, r);
    KeyNamesOrder(cfg, q);
    hide WellFormed, ColumnsApart, KeyOf;
  }

  /** The columns of one order after a step, apart from those of any order that the event does not clash with. */
  lemma StepStaysApart(cfg: Settings, c: Cell, e: Event, other: Rec, clash: bool)
    requires Sound(cfg, c.rec) && WellFormed(cfg, other) && Apart(c.rec, other) && Apart(other, c.rec)
    requires Taken(c, e, other) ==> clash && !(e.Transact? && e.op.SetupTon?)
    ensures var after := Step(cfg, c, Resolve(e, clash)).rec; Apart(after, other) && Apart(other, after)
  {
    StepKeeps(cfg, c, Resolve(e, clash));
    hide Step, WellFormed, Chronicle, ColumnsGrow, ColumnsApart, Taken, Resolve, KeyOf;
    StepColumnsGrow(cfg, c, Resolve(e, clash));
    var after := Step(cfg, c, Resolve(e, clash)).rec;
    GrowthStaysApart(c, e, after, other, clash);
    NumbersKeepApart(cfg, after, other);
  }

  lemma EventKeepsDistinct(cfg: Settings, shop: Shop, id: nat, e: Event)
    requires id in shop && Distinct(shop) && forall j :: j in shop ==> Sound(cfg, shop[j].rec)
    ensures Distinct(ShopStep(cfg, shop, At(id, e)))
  {
    hide WellFormed, Chronicle, Step, Apart, Taken, Resolve;
    if Refused(shop, id, e) { return; }
    var clash := Clashes(shop, id, e);
    forall j | j in shop && j != id
      ensures Apart(Step(cfg, shop[id], Resolve(e, clash)).rec, shop[j].rec)
              && Apart(shop[j].rec, Step(cfg, shop[id], Resolve(e, clash)).rec)
    {
      StepStaysApart(cfg, shop[id], e, shop[j].rec, clash);
    }
  }

  lemma NewOrderIsApart(cfg: Settings, info: OrderInfo, testPaymentId: string, r: Rec)
    requires ValidRequest(cfg, info) && WellFormed(cfg, r) && r.order.info.number != info.number
    requires cfg.testMode ==> ReferenceOf(r) != Some(testPaymentId)
    ensures var fromNew := Begin(cfg, info, testPaymentId).rec; Apart(r, fromNew) && Apart(fromNew, r)
  {
    BeginIsSound(cfg, info, testPaymentId);
    NewColumnsAreApart(cfg, info, testPaymentId, r);
    assert Begin(cfg, info, testPaymentId).rec.order.info == info;
    hide Begin, WellFormed, Chronicle, ColumnsApart, ReferenceOf;
    NumbersKeepApart(cfg, r, Begin(cfg, info, testPaymentId).rec);
  }

  lemma NewColumnsAreApart(cfg: Settings, info: OrderInfo, testPaymentId: string, r: Rec)
    requires cfg.testMode ==> ReferenceOf(r) != Some(testPaymentId)
    ensures var fromNew := Begin(cfg, info, testPaymentId).rec; ColumnsApart(r, fromNew) && ColumnsApart(fromNew, r)
  {
    hide StatusNotes;
  }

  lemma CreationKeepsDistinct(cfg: Settings, shop: Shop, id: nat, info: OrderInfo, testPaymentId: string)
    requires Distinct(shop) && forall j :: j in shop ==> Sound(cfg, shop[j].rec)
    ensures Distinct(ShopStep(cfg, shop, Create(id, info, testPaymentId)))
  {
    hide Apart, Begin, WellFormed, Chronicle, ReferenceOf;
    if id !in shop && ValidRequest(cfg, info) && !CreationClashes(cfg, shop, info.number, testPaymentId) {
      var fromNew := Begin(cfg, info, testPaymentId).rec;
      forall j | j in shop ensures Apart(shop[j].rec, fromNew) && Apart(fromNew, shop[j].rec) {
        NewOrderIsApart(cfg, info, testPaymentId, shop[j].rec);
      }
    }
  }

  lemma OrdersAreSound(cfg: Settings, hs: seq<Happening>)
    ensures forall id :: id in ShopRun(cfg, hs) ==> Sound(cfg, ShopRun(cfg, hs)[id].rec)
  {
    hide Sound;
    forall id | id in ShopRun(cfg, hs) ensures Sound(cfg, ShopRun(cfg, hs)[id].rec) {
      OrdersAreReached(cfg, hs, id);
      var info, testPaymentId, events :| IsReached(cfg, ShopRun(cfg, hs)[id], info, testPaymentId, events);
      ReachIsSound(cfg, info, testPaymentId, events);
    }
  }

  /**
   No order number, payment key, payment comment or reference, TON transaction, provider request, Stars transaction or
   refund is ever held by two orders, whatever is created, observed, answered, retried, expired, cancelled or rolled back.
   */
  lemma {:induction false} NothingIsShared(cfg: Settings, hs: seq<Happening>)
    ensures Distinct(ShopRun(cfg, hs))
  {
    if hs != [] {
      var before := ShopRun(cfg, hs[..|hs| - 1]);
      NothingIsShared(cfg, hs[..|hs| - 1]);
      OrdersAreSound(cfg, hs[..|hs| - 1]);
      match hs[|hs| - 1] {
        case Create(id, info, testPaymentId) => CreationKeepsDistinct(cfg, before, id, info, testPaymentId);
        case At(id, e) => if id in before { EventKeepsDistinct(cfg, before, id, e); }
      }
    }
  }
}
