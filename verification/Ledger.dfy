/** The rows one order owns, and what each repository operation writes into them. */
module Ledger {
  import opened Domain

  /** What is fixed when the order row is inserted. */
  datatype OrderInfo = OrderInfo(
    number: string,
    buyer: int,
    kind: OrderKind,
    recipient: Option<int>,
    buyerUsername: string,
    recipientUsername: string,
    stars: int,
    rubAmount: int)

  /** The amount in nanotons and the wallet that setting up a TON payment fixes. */
  datatype Invoice = Invoice(amount: int, destination: string)

  datatype Order = Order(
    info: OrderInfo,
    status: OrderStatus,
    errorCode: Option<Code>,
    payType: Option<PayType>,
    invoice: Option<Invoice>,
    tonHash: Option<string>,
    expiresAt: Option<int>,
    paymentId: Option<string>,
    paymentStatus: Option<PaymentStatus>,
    requestId: Option<string>,
    telegramTx: Option<string>)

  /** A version 5 UUID is represented by the name it is computed from. */
  datatype Uuid = ChargeKey(orderNumber: string) | RefundKey(orderNumber: string)

  datatype PaymentProvider = TestProvider | Toncenter | YooKassa

  /** The `pending:` placeholder, or the identifier the provider gave the payment. */
  datatype Reference = PendingReference | ProviderReference(id: string)

  datatype RefundStatus = RefundPending | RefundSucceeded | RefundCanceled

  /** The columns of a payment row that never change after the insert. */
  datatype PaymentTerms = PaymentTerms(
    provider: PaymentProvider,
    idempotencyKey: Option<Uuid>,
    expected: int,
    currency: string,
    network: string,
    destination: Option<string>)

  datatype RefundColumns = RefundColumns(
    id: Option<string>,
    status: Option<RefundStatus>,
    key: Option<Uuid>,
    amount: Option<int>)

  datatype Payment = Payment(
    terms: PaymentTerms,
    reference: Reference,
    status: PaymentStatus,
    txHash: Option<string>,
    received: Option<int>,
    confirmationUrl: Option<string>,
    refundable: bool,
    refund: RefundColumns)

  datatype Attempt = Attempt(
    status: AttemptStatus,
    requestId: Option<string>,
    txId: Option<string>,
    errorCode: Option<Code>)

  /** One `order_status_changed` audit event. */
  datatype Edge = Edge(source: OrderStatus, target: OrderStatus)

  datatype Audience = User | Admin

  datatype Note = Note(status: OrderStatus, audience: Audience, resent: bool)

  /** Everything a transaction on one order can read for update or write. */
  datatype Rec = Rec(
    order: Order,
    payment: Option<Payment>,
    attempt: Option<Attempt>,
    log: seq<Edge>,
    notes: seq<Note>)

  // ---------------------------------------------------------------- audit log and outbox

  /** The log is an unbroken path of allowed edges from `start` to `finish`. */
  ghost predicate PathFrom(start: OrderStatus, log: seq<Edge>, finish: OrderStatus) {
    if log == [] then start == finish
    else
      var last := log[|log| - 1];
      && last.target == finish
      && Allowed(last.source, last.target)
      && PathFrom(start, log[..|log| - 1], last.source)
  }

  /** The outbox rows that entering `status` adds. */
  function StatusNotes(status: OrderStatus, stars: int): seq<Note> {
    (if AnnouncedToUser(status) then [Note(status, User, false)] else [])
    + (if AnnouncedToAdmins(status, stars) then [Note(status, Admin, false)] else [])
  }

  /** The outbox a reader of the audit log would expect. */
  ghost function Announced(log: seq<Edge>, stars: int): seq<Note> {
    if log == [] then []
    else Announced(log[..|log| - 1], stars) + StatusNotes(log[|log| - 1].target, stars)
  }

  ghost function WithoutResent(notes: seq<Note>): seq<Note> {
    if notes == [] then []
    else
      WithoutResent(notes[..|notes| - 1])
      + (if notes[|notes| - 1].resent then [] else [notes[|notes| - 1]])
  }

  /** The audit log and the outbox both replay the life of an order that now has this status. */
  ghost predicate Replays(log: seq<Edge>, notes: seq<Note>, status: OrderStatus, stars: int) {
    PathFrom(Created, log, status) && WithoutResent(notes) == Announced(log, stars)
  }

  ghost predicate Chronicle(r: Rec) {
    Replays(r.log, r.notes, r.order.status, r.order.info.stars)
  }

  lemma WithoutResentAppend(notes: seq<Note>, more: seq<Note>)
    ensures WithoutResent(notes + more) == WithoutResent(notes) + WithoutResent(more)
  {
    if more == [] {
      assert notes + more == notes;
    } else {
      var init := more[..|more| - 1];
      WithoutResentAppend(notes, init);
      assert (notes + more)[..|notes + more| - 1] == notes + init;
    }
  }

  lemma StatusNotesAreFresh(status: OrderStatus, stars: int)
    ensures WithoutResent(StatusNotes(status, stars)) == StatusNotes(status, stars)
  {
    var user := if AnnouncedToUser(status) then [Note(status, User, false)] else [];
    var admin := if AnnouncedToAdmins(status, stars) then [Note(status, Admin, false)] else [];
    WithoutResentAppend(user, admin);
    assert WithoutResent([]) == [];
    assert user != [] ==> user[..0] == [];
    assert admin != [] ==> admin[..0] == [];
  }

  lemma ReplayGrows(log: seq<Edge>, notes: seq<Note>, status: OrderStatus, target: OrderStatus, stars: int)
    requires Replays(log, notes, status, stars) && Allowed(status, target)
    ensures Replays(log + [Edge(status, target)], notes + StatusNotes(target, stars), target, stars)
  {
    assert (log + [Edge(status, target)])[..|log|] == log;
    WithoutResentAppend(notes, StatusNotes(target, stars));
    StatusNotesAreFresh(target, stars);
  }

  // ---------------------------------------------------------------- repository operations

  /** Writes a status change, its audit event and its outbox rows, or raises. */
  function Transition(r: Rec, target: OrderStatus, code: Option<Code>): Result<Rec> {
    if r.order.status == target then Ok(r)
    else if !Allowed(r.order.status, target) then Raise(InvalidTransition)
    else
      Ok(r.(order := r.order.(status := target, errorCode := if code.Some? then code else r.order.errorCode),
            log := r.log + [Edge(r.order.status, target)],
            notes := r.notes + StatusNotes(target, r.order.info.stars)))
  }

  lemma TransitionKeepsChronicle(r: Rec, target: OrderStatus, code: Option<Code>)
    requires Chronicle(r)
    ensures Transition(r, target, code).Ok? ==> Chronicle(Transition(r, target, code).value)
  {
    if Transition(r, target, code).Ok? && r.order.status != target {
      ReplayGrows(r.log, r.notes, r.order.status, target, r.order.info.stars);
    }
  }

  lemma TransitionsKeepChronicle()
    ensures forall r, target, code {:trigger Transition(r, target, code)} ::
              Chronicle(r) && Transition(r, target, code).Ok? ==> Chronicle(Transition(r, target, code).value)
  {
    forall r, target, code | Chronicle(r) && Transition(r, target, code).Ok?
      ensures Chronicle(Transition(r, target, code).value)
    {
      TransitionKeepsChronicle(r, target, code);
    }
  }

  /** Sets the mirror field of the order and the payment row's status together. */
  function SetPaymentStatus(r: Rec, status: PaymentStatus): Rec {
    r.(order := r.order.(paymentStatus := Some(status)),
       payment := if r.payment.Some? then Some(r.payment.value.(status := status)) else None)
  }

  function NewPayment(terms: PaymentTerms, reference: Reference): Payment {
    Payment(terms, reference, PayCreated, None, None, None, false, RefundColumns(None, None, None, None))
  }

  /** Inserts the payment row unless the order already has one. */
  function EnsurePayment(r: Rec, payment: Payment): Rec {
    if r.payment.Some? then r else r.(payment := Some(payment))
  }

  function SetupTestPayment(r: Rec, paymentId: string): Result<Rec> {
    if !r.order.status.Created? then Ok(r)
    else
      var marked := r.(order := r.order.(paymentId := Some(paymentId), paymentStatus := Some(PayCreated),
                                         payType := Some(TestPay)));
      var payment := NewPayment(PaymentTerms(TestProvider, None, r.order.info.rubAmount, "RUB", "test", None),
                                ProviderReference(paymentId));
      Transition(EnsurePayment(marked, payment), WaitingForPayment, None)
  }

  function SetupTonPayment(r: Rec, amount: int, comment: string, destination: string, expiresAt: int): Result<Rec> {
    if !r.order.status.Created? then Ok(r)
    else
      var marked := r.(order := r.order.(invoice := Some(Invoice(amount, destination)), paymentId := Some(comment),
                                         paymentStatus := Some(PayCreated), payType := Some(TonPay),
                                         expiresAt := Some(expiresAt)));
      var payment := NewPayment(PaymentTerms(Toncenter, None, amount, "TON", "TON", Some(destination)),
                                ProviderReference(comment));
      Transition(EnsurePayment(marked, payment), WaitingForPayment, None)
  }

  function SetupYooPayment(r: Rec, key: Uuid, expiresAt: int): Result<Rec> {
    if !r.order.status.Created? && !r.order.status.WaitingForPayment? then Raise(Rejected)
    else
      var marked := r.(order := r.order.(paymentStatus := Some(PayCreated), payType := Some(YooPay),
                                         expiresAt := Some(expiresAt)));
      var payment := NewPayment(PaymentTerms(YooKassa, Some(key), r.order.info.rubAmount, "RUB", "yookassa", None),
                                PendingReference);
      var ready := EnsurePayment(marked, payment);
      if r.order.status.Created? then Transition(ready, WaitingForPayment, None) else Ok(ready)
  }

  /**
   Links an incoming transaction to the order. `clash` says that another payment row already holds the
   hash; `stale` that the preceding query missed it, so that only the unique key of the savepoint catches it.
   Returns no record when the hash belongs to another order.
   */
  function RecordDetection(r: Rec, hash: string, amount: int, clash: bool, stale: bool): Result<Option<Rec>> {
    if clash && !stale then Ok(None)
    else if r.payment.None? then Raise(MissingRow)
    else if clash then Ok(None)
    else
      Ok(Some(r.(order := r.order.(tonHash := Some(hash), paymentStatus := Some(PayDetected)),
                 payment := Some(r.payment.value.(txHash := Some(hash), received := Some(amount),
                                                  status := PayDetected)))))
  }

  /** Reuses the purchase attempt of the order or inserts a new one; the flag tells which. */
  function CreateAttempt(r: Rec): (Rec, bool) {
    if r.attempt.Some? then (r, false)
    else (r.(attempt := Some(Attempt(Submitting, None, None, None))), true)
  }

  /** Records the provider's request identifier; a second order with the same one violates a unique key. */
  function MarkQueued(r: Rec, attempt: Attempt, requestId: string, clash: bool): Result<Rec> {
    if clash then Raise(IntegrityError)
    else
      Transition(r.(order := r.order.(requestId := Some(requestId)),
                    attempt := Some(attempt.(requestId := Some(requestId), status := Queued))),
                 StarsSending, None)
  }

  function MarkFailed(r: Rec, attempt: Attempt, code: Code, uncertain: bool): Result<Rec> {
    Transition(r.(attempt := Some(attempt.(status := if uncertain then Uncertain else AttemptFailed,
                                           errorCode := Some(code)))),
               if uncertain then ManualReview else RefundRequired, Some(code))
  }

  function MarkWaitingForBalance(r: Rec, attempt: Attempt, code: Code): Result<Rec> {
    Transition(r.(attempt := Some(attempt.(status := AttemptFailed, errorCode := Some(code)))),
               WaitingForMerchantBalance, Some(code))
  }

  /**
   Completes the order inside a savepoint. When another attempt already holds the transaction, the
   savepoint is undone and the order is sent to manual review instead.
   */
  function MarkSucceeded(r: Rec, attempt: Attempt, txId: string, clash: bool, stale: bool): Result<Rec> {
    if clash && !stale then MarkFailed(r, attempt, DuplicateProviderTransaction, true)
    else
      var completed :- Transition(r.(order := r.order.(telegramTx := Some(txId)),
                                     attempt := Some(attempt.(status := AttemptSucceeded, txId := Some(txId)))),
                                  Completed, None);
      if clash then MarkFailed(r, attempt, DuplicateProviderTransaction, true) else Ok(completed)
  }

  function Resend(r: Rec): Rec {
    r.(notes := r.notes + [Note(r.order.status, User, true)])
  }

  lemma ResendKeepsChronicle(r: Rec)
    requires Chronicle(r)
    ensures Chronicle(Resend(r))
  {
    assert (r.notes + [Note(r.order.status, User, true)])[..|r.notes|] == r.notes;
  }
}
