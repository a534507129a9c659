/**
 Why RetriesBoundPurchases and RetriedDeliveryExcludesRefund ask for order: for every request of a production shop and
 each kind of disorder that they exclude there is a run with that one alone which ends in what the theorem denies.
 */
module PurchaseLimits {
  import opened Domain
  import opened Ledger
  import opened OrderFlow
  import opened OrderInvariants
  import opened Protocol

  /** Real payments, and Fragment as the provider, which can be asked about its requests. */
  predicate ProductionShop(cfg: Settings) {
    !cfg.testMode && cfg.fragmentMode && cfg.queuedProvider
  }

  /** A request that the last gate lets through once it is paid. */
  predicate Deliverable(cfg: Settings, info: OrderInfo) {
    && ValidRequest(cfg, info)
    && (if info.kind.SelfOrder? then info.buyerUsername else info.recipientUsername) != ""
  }

  function OutOfBalance(): PurchaseResult {
    PurchaseResult(false, false, false, None, None, Some(InsufficientBalance))
  }

  function UserNotFound(): PurchaseResult {
    PurchaseResult(false, false, false, None, None, Some(ProviderCode("USER_NOT_FOUND")))
  }

  function QueuedAs(requestId: string): PurchaseResult {
    PurchaseResult(false, true, false, None, Some(requestId), None)
  }

  function FirstAttempt(): Attempt {
    Attempt(Submitting, None, None, None)
  }

  /** The attempt of an approved retry that no delivery has settled yet. */
  function Token(): Attempt {
    Attempt(Submitting, None, None, Some(BalanceRetryApproved))
  }

  function FailedWith(code: Code): Attempt {
    Attempt(AttemptFailed, None, None, Some(code))
  }

  const ORDERLY := Disorder(false, false, false, false)

  // ---------------------------------------------------------------- what the runs tally

  /** After the one charge, before any purchase. */
  function Sold(info: OrderInfo): Tally {
    NoTally().(charges := [ChargePost(ChargeKey(info.number), info.rubAmount)])
  }

  function Sent(tally: Tally): Tally {
    tally.(posts := tally.posts + 1)
  }

  function Denied(tally: Tally, purchase: nat): Tally {
    tally.(word := tally.word.(denied := tally.word.denied + {purchase}))
  }

  function Delivered(tally: Tally, purchase: nat): Tally {
    tally.(word := tally.word.(delivered := tally.word.delivered + {purchase}))
  }

  function Refunded(tally: Tally, call: RefundCall): Tally {
    tally.(refunds := tally.refunds + [call])
  }

  /** A refund was sent, the given purchases were delivered and denied, and there was no other disorder. */
  predicate EndsRefunded(tally: Tally, word: Word, disorder: Disorder) {
    tally.refunds != [] && tally.word == word && !Contradicted(tally) && tally.disorder == disorder
  }

  // ---------------------------------------------------------------- one step at a time

  /** Where a run stands. */
  ghost predicate Stage(c: Cell, info: OrderInfo, payment: Payment, status: OrderStatus, attempt: Option<Attempt>,
                        tasks: map<nat, Task>, tally: Tally)
  {
    && c.rec.order.info == info && c.rec.payment == Some(payment) && c.rec.order.status == status
    && c.rec.attempt == attempt && c.tasks == tasks && c.tally == tally
  }

  lemma ChargeStarts(cfg: Settings, info: OrderInfo, testPaymentId: string, now: int, expiresAt: int)
    requires ProductionShop(cfg) && Deliverable(cfg, info)
    ensures
      var c := Step(cfg, Begin(cfg, info, testPaymentId), StartCharge(0, now, expiresAt));
      && Stage(c, info, NewCharge(info), WaitingForPayment, None, map[0 := ChargePermit(ChargeKey(info.number), info.rubAmount)],
               NoTally())
      && c.rec.order.payType == Some(YooPay)
  {
  }

  /** The payment row of an order whose charge was just prepared. */
  function NewCharge(info: OrderInfo): Payment {
    NewPayment(PaymentTerms(YooKassa, Some(ChargeKey(info.number)), info.rubAmount, "RUB", "yookassa", None), PendingReference)
  }

  /** The payment row after YooKassa reported success. */
  function Charged(info: OrderInfo, paymentId: string): Payment {
    NewCharge(info).(reference := ProviderReference(paymentId), status := PaySucceeded, refundable := true)
  }

  lemma ChargeIsSent(cfg: Settings, c: Cell, info: OrderInfo)
    requires Stage(c, info, NewCharge(info), WaitingForPayment, None,
                   map[0 := ChargePermit(ChargeKey(info.number), info.rubAmount)], NoTally())
    requires c.rec.order.payType == Some(YooPay)
    ensures
      var after := Step(cfg, c, SendCharge(0));
      && Stage(after, info, NewCharge(info), WaitingForPayment, None, map[], Sold(info))
      && after.rec.order.payType == Some(YooPay)
  {
    assert Drop(c.tasks, 0) == map[];
  }

  lemma SnapshotPays(r: Rec, info: OrderInfo, paymentId: string)
    requires r.order.info == info && r.order.status.WaitingForPayment? && r.payment == Some(NewCharge(info))
    ensures
      var res := ApplySnapshot(r, Report(info, paymentId, SnapSucceeded), false);
      && res.Ok? && res.value.order.status.Paid? && res.value.order.info == info && res.value.attempt == r.attempt
      && res.value.payment == Some(Charged(info, paymentId)) && res.value.order.paymentStatus == Some(PaySucceeded)
      && res.value.order.payType == r.order.payType
  {
    hide StatusNotes;
  }

  lemma GateOpens(cfg: Settings, r: Rec, paymentId: string)
    requires Deliverable(cfg, r.order.info) && r.payment == Some(Charged(r.order.info, paymentId))
    requires r.order.paymentStatus == Some(PaySucceeded) && r.order.payType == Some(YooPay)
    ensures PurchaseValidationError(cfg, r).None?
  {
  }

  lemma ChargeSucceeds(cfg: Settings, c: Cell, info: OrderInfo, paymentId: string)
    requires ProductionShop(cfg) && Deliverable(cfg, info)
    requires Stage(c, info, NewCharge(info), WaitingForPayment, None, map[], Sold(info))
    requires c.rec.order.payType == Some(YooPay)
    ensures
      var after := Step(cfg, c, Transact(Snap(Report(info, paymentId, SnapSucceeded), false)));
      && Stage(after, info, Charged(info, paymentId), Paid, None, map[], Sold(info))
      && PurchaseValidationError(cfg, after.rec).None?
  {
    var report := Report(info, paymentId, SnapSucceeded);
    SnapshotPays(c.rec, info, paymentId);
    GateOpens(cfg, ApplySnapshot(c.rec, report, false).value, paymentId);
    hide ApplySnapshot, PurchaseValidationError, NewCharge, Charged, Deliverable;
  }

  lemma FirstDelivery(cfg: Settings, c: Cell, info: OrderInfo, payment: Payment, tally: Tally)
    requires Stage(c, info, payment, Paid, None, map[], tally) && PurchaseValidationError(cfg, c.rec).None?
    ensures Stage(Step(cfg, c, StartDelivery(0, false)), info, payment, PurchaseProcessing, Some(FirstAttempt()),
                  map[0 := Permit], tally)
  {
    hide PurchaseValidationError, StatusNotes;
  }

  /** The retry token survives the transaction that reads it. */
  lemma TokenIsRead(cfg: Settings, c: Cell, t: nat, info: OrderInfo, payment: Payment, tasks: map<nat, Task>, tally: Tally)
    requires Stage(c, info, payment, PurchaseProcessing, Some(Token()), tasks, tally) && t !in tasks
    ensures Stage(Step(cfg, c, StartDelivery(t, false)), info, payment, PurchaseProcessing, Some(Token()),
                  tasks[t := Permit], NoteOverlap(tally, exists u :: u in tasks && Locked(tasks[u])))
  {
    hide PurchaseValidationError;
    assert DeliveryRunning(c) <==> exists u :: u in tasks && Locked(tasks[u]);
  }

  lemma PurchaseIsSent(cfg: Settings, c: Cell, t: nat, info: OrderInfo, payment: Payment, status: OrderStatus,
                       attempt: Attempt, tasks: map<nat, Task>, tally: Tally)
    requires Stage(c, info, payment, status, Some(attempt), tasks, tally)
    requires t in tasks && tasks[t] == Permit
    ensures Stage(Step(cfg, c, SendPurchase(t)), info, payment, status, Some(attempt), tasks[t := Posted(tally.posts)],
                  Sent(tally))
  {
  }

  /** The refusals of the runs below, and where they leave the order. */
  predicate IsRefusal(res: PurchaseResult, target: OrderStatus) {
    (res == OutOfBalance() && target.WaitingForMerchantBalance?) || (res == UserNotFound() && target.RefundRequired?)
  }

  lemma AnswerArrives(cfg: Settings, c: Cell, t: nat, res: PurchaseResult, purchase: nat, info: OrderInfo, payment: Payment,
                      status: OrderStatus, attempt: Attempt, tasks: map<nat, Task>, tally: Tally)
    requires Stage(c, info, payment, status, Some(attempt), tasks, tally)
    requires t in tasks && tasks[t] == Posted(purchase)
    ensures Stage(Step(cfg, c, AnswerPurchase(t, res)), info, payment, status, Some(attempt),
                  tasks[t := Holding(res, true, true, purchase)], Hear(tally, purchase, res))
  {
    hide IsDefiniteFailure;
  }

  lemma RefusalIsApplied(cfg: Settings, c: Cell, t: nat, res: PurchaseResult, purchase: nat, target: OrderStatus,
                         info: OrderInfo, payment: Payment, attempt: Attempt, tasks: map<nat, Task>, tally: Tally)
    requires Stage(c, info, payment, PurchaseProcessing, Some(attempt), tasks, tally)
    requires attempt == FirstAttempt() || attempt == Token()
    requires t in tasks && tasks[t] == Holding(res, true, true, purchase) && IsRefusal(res, target)
    ensures Stage(Step(cfg, c, Apply(t, false, false)), info, payment, target, Some(FailedWith(res.code.value)),
                  Drop(tasks, t), tally)
  {
    hide StatusNotes, Drop;
  }

  lemma RetryIsSeen(cfg: Settings, c: Cell, t: nat, info: OrderInfo, payment: Payment, attempt: Attempt,
                    tasks: map<nat, Task>, tally: Tally)
    requires Stage(c, info, payment, WaitingForMerchantBalance, Some(attempt), tasks, tally) && t !in tasks
    ensures Stage(Step(cfg, c, ReadForRetry(t)), info, payment, WaitingForMerchantBalance, Some(attempt),
                  tasks[t := RetrySeen], tally)
  {
  }

  lemma RetryIsApproved(cfg: Settings, c: Cell, t: nat, info: OrderInfo, payment: Payment, status: OrderStatus,
                        code: Code, tasks: map<nat, Task>, tally: Tally)
    requires Stage(c, info, payment, status, Some(FailedWith(code)), tasks, tally)
    requires status.WaitingForMerchantBalance? || status.ManualReview?
    requires t in tasks && tasks[t] == RetrySeen
    ensures Stage(Step(cfg, c, Approve(t)), info, payment, PurchaseProcessing, Some(Token()), Drop(tasks, t),
                  NoteApproval(tally, status.ManualReview?))
  {
    hide StatusNotes, Drop;
  }

  lemma StarsArrive(cfg: Settings, c: Cell, purchase: nat, info: OrderInfo, payment: Payment, status: OrderStatus,
                    attempt: Attempt, tasks: map<nat, Task>, tally: Tally)
    requires Stage(c, info, payment, status, Some(attempt), tasks, tally) && purchase < tally.posts
    ensures Stage(Step(cfg, c, ProviderDelivers(purchase)), info, payment, status, Some(attempt), tasks,
                  Delivered(tally, purchase))
  {
  }

  // ---------------------------------------------------------------- stretches of a run

  function Paying(info: OrderInfo, paymentId: string, now: int, expiresAt: int): seq<Event> {
    [StartCharge(0, now, expiresAt), SendCharge(0)] + [Transact(Snap(Report(info, paymentId, SnapSucceeded), false))]
  }

  function Buying(t: nat): seq<Event> {
    [StartDelivery(t, false), SendPurchase(t)]
  }

  function Refusing(t: nat, res: PurchaseResult): seq<Event> {
    [AnswerPurchase(t, res), Apply(t, false, false)]
  }

  function PayingBack(): seq<Event> {
    [StartRefund(2), SendRefund(2)]
  }

  /** Paid, and refused for lack of balance. */
  function Waiting(info: OrderInfo, paymentId: string, now: int, expiresAt: int): seq<Event> {
    Paying(info, paymentId, now, expiresAt) + Buying(0) + Refusing(0, OutOfBalance())
  }

  /** ... and approved once for another try. */
  function ApprovedOnce(info: OrderInfo, paymentId: string, now: int, expiresAt: int): seq<Event> {
    Waiting(info, paymentId, now, expiresAt) + [ReadForRetry(0), Approve(0)]
  }

  /** The next try is refused for good, and the buyer refunded. */
  function RefusedAndRefunded(): seq<Event> {
    Buying(0) + Refusing(0, UserNotFound()) + PayingBack()
  }

  function TallyWaiting(info: OrderInfo): Tally {
    Denied(Sent(Sold(info)), 0)
  }

  function TallyApproved(info: OrderInfo): Tally {
    NoteApproval(TallyWaiting(info), false)
  }

  lemma PayingRuns(cfg: Settings, info: OrderInfo, testPaymentId: string, paymentId: string, now: int, expiresAt: int)
    requires ProductionShop(cfg) && Deliverable(cfg, info)
    ensures
      var c := Run(cfg, Begin(cfg, info, testPaymentId), Paying(info, paymentId, now, expiresAt));
      && Stage(c, info, Charged(info, paymentId), Paid, None, map[], Sold(info))
      && PurchaseValidationError(cfg, c.rec).None?
  {
    ChargeStarts(cfg, info, testPaymentId, now, expiresAt);
    hide Begin, Run, Step, Stage, NewCharge, Charged, Sold, Deliverable, PurchaseValidationError, Report;
    var start := Begin(cfg, info, testPaymentId);
    var success := Transact(Snap(Report(info, paymentId, SnapSucceeded), false));
    var c1 := Step(cfg, start, StartCharge(0, now, expiresAt));
    ChargeIsSent(cfg, c1, info);
    ChargeSucceeds(cfg, Step(cfg, c1, SendCharge(0)), info, paymentId);
    RunOfTwo(cfg, start, StartCharge(0, now, expiresAt), SendCharge(0));
    RunOfOne(cfg, Step(cfg, c1, SendCharge(0)), success);
    RunSplits(cfg, start, [StartCharge(0, now, expiresAt), SendCharge(0)], [success]);
  }

  lemma FirstBuyingRuns(cfg: Settings, c: Cell, info: OrderInfo, payment: Payment, tally: Tally)
    requires Stage(c, info, payment, Paid, None, map[], tally) && PurchaseValidationError(cfg, c.rec).None?
    ensures Stage(Run(cfg, c, Buying(0)), info, payment, PurchaseProcessing, Some(FirstAttempt()),
                  map[0 := Posted(tally.posts)], Sent(tally))
  {
    hide Run, Step, Stage, PurchaseValidationError, Sent;
    FirstDelivery(cfg, c, info, payment, tally);
    PurchaseIsSent(cfg, Step(cfg, c, StartDelivery(0, false)), 0, info, payment, PurchaseProcessing, FirstAttempt(),
                   map[0 := Permit], tally);
    RunOfTwo(cfg, c, StartDelivery(0, false), SendPurchase(0));
    assert map[0 := Permit][0 := Posted(tally.posts)] == map[0 := Posted(tally.posts)];
  }

  lemma RetryRuns(cfg: Settings, c: Cell, t: nat, info: OrderInfo, payment: Payment, tasks: map<nat, Task>, tally: Tally)
    requires Stage(c, info, payment, PurchaseProcessing, Some(Token()), tasks, tally)
    requires t !in tasks && forall u :: u in tasks ==> !Locked(tasks[u])
    ensures Stage(Run(cfg, c, Buying(t)), info, payment, PurchaseProcessing, Some(Token()), tasks[t := Posted(tally.posts)],
                  Sent(tally))
  {
    TokenIsRead(cfg, c, t, info, payment, tasks, tally);
    assert NoteOverlap(tally, false) == tally;
    hide Run, Step, Stage, Sent, NoteOverlap;
    PurchaseIsSent(cfg, Step(cfg, c, StartDelivery(t, false)), t, info, payment, PurchaseProcessing, Token(),
                   tasks[t := Permit], tally);
    RunOfTwo(cfg, c, StartDelivery(t, false), SendPurchase(t));
    assert tasks[t := Permit][t := Posted(tally.posts)] == tasks[t := Posted(tally.posts)];
  }

  lemma RefusingRuns(cfg: Settings, c: Cell, t: nat, res: PurchaseResult, purchase: nat, target: OrderStatus,
                     info: OrderInfo, payment: Payment, attempt: Attempt, rest: map<nat, Task>, tally: Tally)
    requires Stage(c, info, payment, PurchaseProcessing, Some(attempt), rest[t := Posted(purchase)], tally)
    requires attempt == FirstAttempt() || attempt == Token()
    requires t !in rest && IsRefusal(res, target)
    ensures Stage(Run(cfg, c, Refusing(t, res)), info, payment, target, Some(FailedWith(res.code.value)), rest,
                  Denied(tally, purchase))
  {
    assert Hear(tally, purchase, res) == Denied(tally, purchase);
    hide Run, Step, Stage, Hear, Denied;
    var posted := rest[t := Posted(purchase)];
    AnswerArrives(cfg, c, t, res, purchase, info, payment, PurchaseProcessing, attempt, posted, tally);
    var held := posted[t := Holding(res, true, true, purchase)];
    RefusalIsApplied(cfg, Step(cfg, c, AnswerPurchase(t, res)), t, res, purchase, target, info, payment, attempt, held,
                     Denied(tally, purchase));
    RunOfTwo(cfg, c, AnswerPurchase(t, res), Apply(t, false, false));
    assert Drop(held, t) == rest;
  }

  lemma WaitingRuns(cfg: Settings, info: OrderInfo, testPaymentId: string, paymentId: string, now: int, expiresAt: int)
    requires ProductionShop(cfg) && Deliverable(cfg, info)
    ensures Stage(Run(cfg, Begin(cfg, info, testPaymentId), Waiting(info, paymentId, now, expiresAt)),
                  info, Charged(info, paymentId), WaitingForMerchantBalance, Some(FailedWith(InsufficientBalance)),
                  map[], TallyWaiting(info))
  {
    hide Run, Begin, Stage, Paying, Buying, Refusing, Charged, Deliverable, PurchaseValidationError, Denied;
    var start, payment := Begin(cfg, info, testPaymentId), Charged(info, paymentId);
    var pay := Paying(info, paymentId, now, expiresAt);
    PayingRuns(cfg, info, testPaymentId, paymentId, now, expiresAt);
    FirstBuyingRuns(cfg, Run(cfg, start, pay), info, payment, Sold(info));
    RunSplits(cfg, start, pay, Buying(0));
    assert map[][0 := Posted(0)] == map[0 := Posted(0)];
    RefusingRuns(cfg, Run(cfg, start, pay + Buying(0)), 0, OutOfBalance(), 0, WaitingForMerchantBalance, info, payment,
                 FirstAttempt(), map[], Sent(Sold(info)));
    RunSplits(cfg, start, pay + Buying(0), Refusing(0, OutOfBalance()));
  }

  lemma ApprovedOnceRuns(cfg: Settings, info: OrderInfo, testPaymentId: string, paymentId: string, now: int, expiresAt: int)
    requires ProductionShop(cfg) && Deliverable(cfg, info)
    ensures Stage(Run(cfg, Begin(cfg, info, testPaymentId), ApprovedOnce(info, paymentId, now, expiresAt)),
                  info, Charged(info, paymentId), PurchaseProcessing, Some(Token()), map[], TallyApproved(info))
  {
    hide Run, Begin, Step, Stage, Waiting, Charged, Deliverable, TallyWaiting, NoteApproval;
    var start, payment, tally := Begin(cfg, info, testPaymentId), Charged(info, paymentId), TallyWaiting(info);
    var waiting := Waiting(info, paymentId, now, expiresAt);
    WaitingRuns(cfg, info, testPaymentId, paymentId, now, expiresAt);
    var c := Run(cfg, start, waiting);
    RetryIsSeen(cfg, c, 0, info, payment, FailedWith(InsufficientBalance), map[], tally);
    var tasks: map<nat, Task> := map[][0 := RetrySeen];
    RetryIsApproved(cfg, Step(cfg, c, ReadForRetry(0)), 0, info, payment, WaitingForMerchantBalance, InsufficientBalance,
                    tasks, tally);
    assert Drop(tasks, 0) == map[];
    RunOfTwo(cfg, c, ReadForRetry(0), Approve(0));
    RunSplits(cfg, start, waiting, [ReadForRetry(0), Approve(0)]);
  }

  // ---------------------------------------------------------------- the token is left behind

  lemma CrashLosesAnswer(cfg: Settings, c: Cell, info: OrderInfo, payment: Payment, tasks: map<nat, Task>, tally: Tally)
    requires Stage(c, info, payment, PurchaseProcessing, Some(Token()), tasks, tally)
    requires 0 in tasks && tasks[0].Posted?
    ensures Stage(Step(cfg, c, Crash(0)), info, payment, PurchaseProcessing, Some(Token()), Drop(tasks, 0), NoteLoss(tally, true))
  {
  }

  lemma ReusedRequestIsRolledBack(cfg: Settings, c: Cell, info: OrderInfo, payment: Payment, requestId: string, purchase: nat,
                                  tasks: map<nat, Task>, tally: Tally)
    requires requestId != ""
    requires Stage(c, info, payment, PurchaseProcessing, Some(Token()), tasks, tally)
    requires 0 in tasks && tasks[0] == Holding(QueuedAs(requestId), true, true, purchase)
    ensures Stage(Step(cfg, c, Apply(0, true, false)), info, payment, PurchaseProcessing, Some(Token()), Drop(tasks, 0),
                  NoteReuse(tally, true))
  {
    hide StatusNotes;
  }

  /** An answer whose request identifier another order holds. */
  function RollingBack(requestId: string): seq<Event> {
    [AnswerPurchase(0, QueuedAs(requestId)), Apply(0, true, false)]
  }

  lemma RollingBackRuns(cfg: Settings, c: Cell, info: OrderInfo, payment: Payment, requestId: string, purchase: nat, tally: Tally)
    requires requestId != ""
    requires Stage(c, info, payment, PurchaseProcessing, Some(Token()), map[][0 := Posted(purchase)], tally)
    ensures Stage(Run(cfg, c, RollingBack(requestId)), info, payment, PurchaseProcessing, Some(Token()), map[],
                  NoteReuse(tally, true))
  {
    var answer := QueuedAs(requestId);
    assert Hear(tally, purchase, answer) == tally;
    hide Run, Step, Stage, QueuedAs, Hear, NoteReuse;
    var posted: map<nat, Task> := map[][0 := Posted(purchase)];
    var held := posted[0 := Holding(answer, true, true, purchase)];
    AnswerArrives(cfg, c, 0, answer, purchase, info, payment, PurchaseProcessing, Token(), posted, tally);
    ReusedRequestIsRolledBack(cfg, Step(cfg, c, AnswerPurchase(0, answer)), info, payment, requestId, purchase, held, tally);
    RunOfTwo(cfg, c, AnswerPurchase(0, answer), Apply(0, true, false));
    assert Drop(held, 0) == map[];
  }

  // ---------------------------------------------------------------- too many purchases

  /** A crash between the retried purchase and its persisted answer lets the next delivery send it again. */
  lemma CrashRepeatsRetry(cfg: Settings, info: OrderInfo, testPaymentId: string, paymentId: string, now: int, expiresAt: int)
    requires ProductionShop(cfg) && Deliverable(cfg, info)
    ensures
      var events := ApprovedOnce(info, paymentId, now, expiresAt) + Buying(0) + [Crash(0)] + Buying(0);
      var tally := Run(cfg, Begin(cfg, info, testPaymentId), events).tally;
      tally.posts == 3 && tally.approvals == 1 && tally.disorder == ORDERLY.(lostAnswer := true)
  {
    ApprovedOnceRuns(cfg, info, testPaymentId, paymentId, now, expiresAt);
    hide Run, Begin, Step, ApprovedOnce, Buying, Charged, Deliverable;
    var start, payment, tally := Begin(cfg, info, testPaymentId), Charged(info, paymentId), TallyApproved(info);
    var approved := ApprovedOnce(info, paymentId, now, expiresAt);
    RetryRuns(cfg, Run(cfg, start, approved), 0, info, payment, map[], tally);
    RunSplits(cfg, start, approved, Buying(0));
    var sent := approved + Buying(0);
    var posted: map<nat, Task> := map[][0 := Posted(1)];
    CrashLosesAnswer(cfg, Run(cfg, start, sent), info, payment, posted, Sent(tally));
    assert Drop(posted, 0) == map[];
    RunOfOne(cfg, Run(cfg, start, sent), Crash(0));
    RunSplits(cfg, start, sent, [Crash(0)]);
    RetryRuns(cfg, Run(cfg, start, sent + [Crash(0)]), 0, info, payment, map[], NoteLoss(Sent(tally), true));
    RunSplits(cfg, start, sent + [Crash(0)], Buying(0));
  }

  lemma BothRead(cfg: Settings, c: Cell, info: OrderInfo, payment: Payment, tally: Tally)
    requires Stage(c, info, payment, PurchaseProcessing, Some(Token()), map[], tally)
    ensures Stage(Run(cfg, c, [StartDelivery(0, false), StartDelivery(1, false)]), info, payment, PurchaseProcessing,
                  Some(Token()), map[0 := Permit, 1 := Permit], NoteOverlap(tally, true))
  {
    assert NoteOverlap(tally, false) == tally;
    hide Run, Step, Stage, NoteOverlap;
    TokenIsRead(cfg, c, 0, info, payment, map[], tally);
    var tasks: map<nat, Task> := map[][0 := Permit];
    TokenIsRead(cfg, Step(cfg, c, StartDelivery(0, false)), 1, info, payment, tasks, tally);
    assert Locked(tasks[0]);
    RunOfTwo(cfg, c, StartDelivery(0, false), StartDelivery(1, false));
    assert tasks[1 := Permit] == map[0 := Permit, 1 := Permit];
  }

  lemma BothSend(cfg: Settings, c: Cell, info: OrderInfo, payment: Payment, tally: Tally)
    requires Stage(c, info, payment, PurchaseProcessing, Some(Token()), map[0 := Permit, 1 := Permit], tally)
    ensures Run(cfg, c, [SendPurchase(0), SendPurchase(1)]).tally == Sent(Sent(tally))
  {
    var tasks: map<nat, Task> := map[0 := Permit, 1 := Permit];
    PurchaseIsSent(cfg, c, 0, info, payment, PurchaseProcessing, Token(), tasks, tally);
    PurchaseIsSent(cfg, Step(cfg, c, SendPurchase(0)), 1, info, payment, PurchaseProcessing, Token(),
                   tasks[0 := Posted(tally.posts)], Sent(tally));
    RunOfTwo(cfg, c, SendPurchase(0), SendPurchase(1));
    hide Run, Step, Sent;
  }

  /** Two processes do not share the lock, and both read the same token. */
  lemma TwoProcessesRepeatRetry(cfg: Settings, info: OrderInfo, testPaymentId: string, paymentId: string, now: int,
                                expiresAt: int)
    requires ProductionShop(cfg) && Deliverable(cfg, info)
    ensures
      var events := ApprovedOnce(info, paymentId, now, expiresAt)
        + [StartDelivery(0, false), StartDelivery(1, false)] + [SendPurchase(0), SendPurchase(1)];
      var tally := Run(cfg, Begin(cfg, info, testPaymentId), events).tally;
      tally.posts == 3 && tally.approvals == 1 && tally.disorder == ORDERLY.(overlapped := true)
  {
    ApprovedOnceRuns(cfg, info, testPaymentId, paymentId, now, expiresAt);
    hide Run, Begin, Step, Stage, ApprovedOnce, Charged, Deliverable;
    var start, payment, tally := Begin(cfg, info, testPaymentId), Charged(info, paymentId), TallyApproved(info);
    var approved := ApprovedOnce(info, paymentId, now, expiresAt);
    var read, send := [StartDelivery(0, false), StartDelivery(1, false)], [SendPurchase(0), SendPurchase(1)];
    BothRead(cfg, Run(cfg, start, approved), info, payment, tally);
    RunSplits(cfg, start, approved, read);
    BothSend(cfg, Run(cfg, start, approved + read), info, payment, NoteOverlap(tally, true));
    RunSplits(cfg, start, approved + read, send);
  }

  /** An answer whose request identifier another order holds is rolled back, and the token is still there. */
  lemma ReusedRequestRepeatsRetry(cfg: Settings, info: OrderInfo, testPaymentId: string, paymentId: string, now: int,
                                  expiresAt: int, requestId: string)
    requires ProductionShop(cfg) && Deliverable(cfg, info) && requestId != ""
    ensures
      var events := ApprovedOnce(info, paymentId, now, expiresAt) + Buying(0) + RollingBack(requestId) + Buying(0);
      var tally := Run(cfg, Begin(cfg, info, testPaymentId), events).tally;
      tally.posts == 3 && tally.approvals == 1 && tally.disorder == ORDERLY.(reusedRequest := true)
  {
    ApprovedOnceRuns(cfg, info, testPaymentId, paymentId, now, expiresAt);
    hide Run, Begin, Step, ApprovedOnce, Buying, RollingBack, Charged, Deliverable;
    var start, payment, tally := Begin(cfg, info, testPaymentId), Charged(info, paymentId), TallyApproved(info);
    var approved := ApprovedOnce(info, paymentId, now, expiresAt);
    RetryRuns(cfg, Run(cfg, start, approved), 0, info, payment, map[], tally);
    RunSplits(cfg, start, approved, Buying(0));
    RollingBackRuns(cfg, Run(cfg, start, approved + Buying(0)), info, payment, requestId, 1, Sent(tally));
    RunSplits(cfg, start, approved + Buying(0), RollingBack(requestId));
    var e := approved + Buying(0) + RollingBack(requestId);
    RetryRuns(cfg, Run(cfg, start, e), 0, info, payment, map[], NoteReuse(Sent(tally), true));
    RunSplits(cfg, start, e, Buying(0));
  }

  // ---------------------------------------------------------------- refunded and delivered

  /** The payment row once its refund is prepared. */
  function Refunding(info: OrderInfo, paymentId: string): Payment {
    Charged(info, paymentId).(refund := RefundColumns(None, None, Some(RefundKey(info.number)), None))
  }

  function TheRefund(info: OrderInfo, paymentId: string): RefundCall {
    RefundCall(ProviderReference(paymentId), info.rubAmount, RefundKey(info.number))
  }

  function Refused(): Attempt {
    FailedWith(ProviderCode("USER_NOT_FOUND"))
  }

  lemma RefundIsPrepared(r: Rec, info: OrderInfo, paymentId: string)
    requires r.order.info == info && r.order.status.RefundRequired? && r.payment == Some(Charged(info, paymentId))
    requires r.attempt == Some(Refused())
    ensures BeginRefund(r) == Ok((r.(payment := Some(Refunding(info, paymentId))), TheRefund(info, paymentId)))
  {
  }

  lemma PayingBackRuns(cfg: Settings, c: Cell, info: OrderInfo, paymentId: string, tasks: map<nat, Task>, tally: Tally)
    requires Stage(c, info, Charged(info, paymentId), RefundRequired, Some(Refused()), tasks, tally) && 2 !in tasks
    ensures Stage(Run(cfg, c, PayingBack()), info, Refunding(info, paymentId), RefundRequired, Some(Refused()),
                  tasks[2 := RefundSent(TheRefund(info, paymentId))], Refunded(tally, TheRefund(info, paymentId)))
  {
    RefundIsPrepared(c.rec, info, paymentId);
    RunOfTwo(cfg, c, StartRefund(2), SendRefund(2));
    hide Run, BeginRefund, Charged, Refunding, TheRefund, Refused;
    var call := TheRefund(info, paymentId);
    var begun := Step(cfg, c, StartRefund(2));
    assert begun.tasks == tasks[2 := RefundPermit(call)];
    assert begun.tasks[2 := RefundSent(call)] == tasks[2 := RefundSent(call)];
  }

  lemma RefundIsReviewed(cfg: Settings, c: Cell, info: OrderInfo, payment: Payment, code: Code, tasks: map<nat, Task>,
                         tally: Tally)
    requires Stage(c, info, payment, RefundRequired, Some(FailedWith(code)), tasks, tally)
    ensures Stage(Step(cfg, c, Transact(SendToReview)), info, payment, ManualReview, Some(FailedWith(code)), tasks, tally)
  {
    hide StatusNotes;
  }

  /** The tally after the next purchase was refused and paid back. */
  function TallyRefunded(tally: Tally, info: OrderInfo, paymentId: string): Tally {
    Refunded(Denied(Sent(tally), tally.posts), TheRefund(info, paymentId))
  }

  lemma RefusedAndRefundedRuns(cfg: Settings, c: Cell, info: OrderInfo, paymentId: string, rest: map<nat, Task>, tally: Tally)
    requires Stage(c, info, Charged(info, paymentId), PurchaseProcessing, Some(Token()), rest, tally)
    requires 0 !in rest && 2 !in rest && forall u :: u in rest ==> !Locked(rest[u])
    ensures Stage(Run(cfg, c, RefusedAndRefunded()), info, Refunding(info, paymentId), RefundRequired, Some(Refused()),
                  rest[2 := RefundSent(TheRefund(info, paymentId))], TallyRefunded(tally, info, paymentId))
  {
    hide Run, Stage, Buying, Refusing, PayingBack, Charged, Refunding, TheRefund, Sent, Denied, Refunded;
    var payment := Charged(info, paymentId);
    RetryRuns(cfg, c, 0, info, payment, rest, tally);
    RefusingRuns(cfg, Run(cfg, c, Buying(0)), 0, UserNotFound(), tally.posts, RefundRequired, info, payment, Token(), rest,
                 Sent(tally));
    RunSplits(cfg, c, Buying(0), Refusing(0, UserNotFound()));
    PayingBackRuns(cfg, Run(cfg, c, Buying(0) + Refusing(0, UserNotFound())), info, paymentId, rest,
                   Denied(Sent(tally), tally.posts));
    RunSplits(cfg, c, Buying(0) + Refusing(0, UserNotFound()), PayingBack());
  }

  /**
   A retried purchase is delivered, the worker crashes before it commits the answer, the next delivery sends the
   purchase again, is refused, and the buyer gets the money back.
   */
  lemma CrashDeliversRefunded(cfg: Settings, info: OrderInfo, testPaymentId: string, paymentId: string, now: int,
                              expiresAt: int)
    requires ProductionShop(cfg) && Deliverable(cfg, info)
    ensures
      var events := ApprovedOnce(info, paymentId, now, expiresAt) + Buying(0) + [ProviderDelivers(1), Crash(0)]
        + RefusedAndRefunded();
      var tally := Run(cfg, Begin(cfg, info, testPaymentId), events).tally;
      EndsRefunded(tally, Word({1}, {0, 2}), ORDERLY.(lostAnswer := true)) && tally.approvals == 1
  {
    ApprovedOnceRuns(cfg, info, testPaymentId, paymentId, now, expiresAt);
    hide Run, Begin, Step, ApprovedOnce, Buying, RefusedAndRefunded, Charged, Refunding, TheRefund, Deliverable;
    var start, payment, tally := Begin(cfg, info, testPaymentId), Charged(info, paymentId), TallyApproved(info);
    var e0 := ApprovedOnce(info, paymentId, now, expiresAt);
    RetryRuns(cfg, Run(cfg, start, e0), 0, info, payment, map[], tally);
    RunSplits(cfg, start, e0, Buying(0));
    var c := Run(cfg, start, e0 + Buying(0));
    var posted: map<nat, Task> := map[][0 := Posted(1)];
    StarsArrive(cfg, c, 1, info, payment, PurchaseProcessing, Token(), posted, Sent(tally));
    var arrived := Delivered(Sent(tally), 1);
    CrashLosesAnswer(cfg, Step(cfg, c, ProviderDelivers(1)), info, payment, posted, arrived);
    assert Drop(posted, 0) == map[];
    RunOfTwo(cfg, c, ProviderDelivers(1), Crash(0));
    RunSplits(cfg, start, e0 + Buying(0), [ProviderDelivers(1), Crash(0)]);
    var e1 := e0 + Buying(0) + [ProviderDelivers(1), Crash(0)];
    RefusedAndRefundedRuns(cfg, Run(cfg, start, e1), info, paymentId, map[], NoteLoss(arrived, true));
    RunSplits(cfg, start, e1, RefusedAndRefunded());
  }

  /** The answer about a delivered purchase is rolled back because of its request identifier, with the same end. */
  lemma ReusedRequestDeliversRefunded(cfg: Settings, info: OrderInfo, testPaymentId: string, paymentId: string, now: int,
                                      expiresAt: int, requestId: string)
    requires ProductionShop(cfg) && Deliverable(cfg, info) && requestId != ""
    ensures
      var events := ApprovedOnce(info, paymentId, now, expiresAt) + Buying(0) + RollingBack(requestId) + [ProviderDelivers(1)]
        + RefusedAndRefunded();
      var tally := Run(cfg, Begin(cfg, info, testPaymentId), events).tally;
      EndsRefunded(tally, Word({1}, {0, 2}), ORDERLY.(reusedRequest := true)) && tally.approvals == 1
  {
    ApprovedOnceRuns(cfg, info, testPaymentId, paymentId, now, expiresAt);
    hide Run, Begin, Step, ApprovedOnce, Buying, RollingBack, RefusedAndRefunded, Charged, Refunding, TheRefund, Deliverable;
    var start, payment, tally := Begin(cfg, info, testPaymentId), Charged(info, paymentId), TallyApproved(info);
    var e0 := ApprovedOnce(info, paymentId, now, expiresAt);
    RetryRuns(cfg, Run(cfg, start, e0), 0, info, payment, map[], tally);
    RunSplits(cfg, start, e0, Buying(0));
    RollingBackRuns(cfg, Run(cfg, start, e0 + Buying(0)), info, payment, requestId, 1, Sent(tally));
    RunSplits(cfg, start, e0 + Buying(0), RollingBack(requestId));
    var e1 := e0 + Buying(0) + RollingBack(requestId);
    var rolled := NoteReuse(Sent(tally), true);
    StarsArrive(cfg, Run(cfg, start, e1), 1, info, payment, PurchaseProcessing, Token(), map[], rolled);
    RunOfOne(cfg, Run(cfg, start, e1), ProviderDelivers(1));
    RunSplits(cfg, start, e1, [ProviderDelivers(1)]);
    var e2 := e1 + [ProviderDelivers(1)];
    RefusedAndRefundedRuns(cfg, Run(cfg, start, e2), info, paymentId, map[], Delivered(rolled, 1));
    RunSplits(cfg, start, e2, RefusedAndRefunded());
  }

  /** The refused retry whose refund was sent, with another call of `safe_retry_order` still in flight. */
  function RefundedRetry(info: OrderInfo, paymentId: string, now: int, expiresAt: int): seq<Event> {
    Waiting(info, paymentId, now, expiresAt) + [ReadForRetry(1), ReadForRetry(0)] + [Approve(0)] + RefusedAndRefunded()
  }

  lemma RefundedRetryRuns(cfg: Settings, info: OrderInfo, testPaymentId: string, paymentId: string, now: int, expiresAt: int)
    requires ProductionShop(cfg) && Deliverable(cfg, info)
    ensures Stage(Run(cfg, Begin(cfg, info, testPaymentId), RefundedRetry(info, paymentId, now, expiresAt)), info,
                  Refunding(info, paymentId), RefundRequired, Some(Refused()),
                  map[1 := RetrySeen][2 := RefundSent(TheRefund(info, paymentId))],
                  TallyRefunded(TallyApproved(info), info, paymentId))
  {
    WaitingRuns(cfg, info, testPaymentId, paymentId, now, expiresAt);
    hide Run, Begin, Step, Stage, Waiting, RefusedAndRefunded, Charged, Refunding, TheRefund, Deliverable;
    hide TallyWaiting, TallyRefunded, NoteApproval;
    var start, payment, tally := Begin(cfg, info, testPaymentId), Charged(info, paymentId), TallyWaiting(info);
    var e0 := Waiting(info, paymentId, now, expiresAt);
    var c0 := Run(cfg, start, e0);
    var seen: map<nat, Task> := map[][1 := RetrySeen];
    RetryIsSeen(cfg, c0, 1, info, payment, FailedWith(InsufficientBalance), map[], tally);
    RetryIsSeen(cfg, Step(cfg, c0, ReadForRetry(1)), 0, info, payment, FailedWith(InsufficientBalance), seen, tally);
    RunOfTwo(cfg, c0, ReadForRetry(1), ReadForRetry(0));
    RunSplits(cfg, start, e0, [ReadForRetry(1), ReadForRetry(0)]);
    var e1 := e0 + [ReadForRetry(1), ReadForRetry(0)];
    RetryIsApproved(cfg, Run(cfg, start, e1), 0, info, payment, WaitingForMerchantBalance, InsufficientBalance,
                    seen[0 := RetrySeen], tally);
    assert Drop(seen[0 := RetrySeen], 0) == seen;
    RunOfOne(cfg, Run(cfg, start, e1), Approve(0));
    RunSplits(cfg, start, e1, [Approve(0)]);
    var e2 := e1 + [Approve(0)];
    RefusedAndRefundedRuns(cfg, Run(cfg, start, e2), info, paymentId, seen, TallyApproved(info));
    RunSplits(cfg, start, e2, RefusedAndRefunded());
    assert seen == map[1 := RetrySeen];
  }

  /** ... sent to review, and approved by the call that is still in flight. */
  function ApprovedLate(info: OrderInfo, paymentId: string, now: int, expiresAt: int): seq<Event> {
    RefundedRetry(info, paymentId, now, expiresAt) + [Transact(SendToReview), Approve(1)]
  }

  function TallyLate(info: OrderInfo, paymentId: string): Tally {
    NoteApproval(TallyRefunded(TallyApproved(info), info, paymentId), true)
  }

  lemma ApprovedLateRuns(cfg: Settings, info: OrderInfo, testPaymentId: string, paymentId: string, now: int, expiresAt: int)
    requires ProductionShop(cfg) && Deliverable(cfg, info)
    ensures Stage(Run(cfg, Begin(cfg, info, testPaymentId), ApprovedLate(info, paymentId, now, expiresAt)), info,
                  Refunding(info, paymentId), PurchaseProcessing, Some(Token()),
                  map[2 := RefundSent(TheRefund(info, paymentId))], TallyLate(info, paymentId))
  {
    RefundedRetryRuns(cfg, info, testPaymentId, paymentId, now, expiresAt);
    hide Run, Begin, Step, Stage, RefundedRetry, Refunding, TheRefund, Deliverable, NoteApproval, TallyRefunded;
    var start, payment := Begin(cfg, info, testPaymentId), Refunding(info, paymentId);
    var tally := TallyRefunded(TallyApproved(info), info, paymentId);
    var code := ProviderCode("USER_NOT_FOUND");
    var e0 := RefundedRetry(info, paymentId, now, expiresAt);
    var sent: map<nat, Task> := map[2 := RefundSent(TheRefund(info, paymentId))];
    var tasks: map<nat, Task> := map[1 := RetrySeen][2 := RefundSent(TheRefund(info, paymentId))];
    var c0 := Run(cfg, start, e0);
    RefundIsReviewed(cfg, c0, info, payment, code, tasks, tally);
    RetryIsApproved(cfg, Step(cfg, c0, Transact(SendToReview)), 1, info, payment, ManualReview, code, tasks, tally);
    assert Drop(tasks, 1) == sent;
    RunOfTwo(cfg, c0, Transact(SendToReview), Approve(1));
    RunSplits(cfg, start, e0, [Transact(SendToReview), Approve(1)]);
  }

  /** A retry that is approved on an outdated status, after the refund was sent and the order reviewed, is delivered. */
  lemma OutdatedApprovalDeliversRefunded(cfg: Settings, info: OrderInfo, testPaymentId: string, paymentId: string,
                                         now: int, expiresAt: int)
    requires ProductionShop(cfg) && Deliverable(cfg, info)
    ensures
      var events := ApprovedLate(info, paymentId, now, expiresAt) + Buying(0) + [ProviderDelivers(2)];
      var tally := Run(cfg, Begin(cfg, info, testPaymentId), events).tally;
      EndsRefunded(tally, Word({2}, {0, 1}), ORDERLY.(outdated := true))
  {
    ApprovedLateRuns(cfg, info, testPaymentId, paymentId, now, expiresAt);
    hide Run, Begin, Step, ApprovedLate, Buying, Refunding, TheRefund, Deliverable;
    var start, payment, tally := Begin(cfg, info, testPaymentId), Refunding(info, paymentId), TallyLate(info, paymentId);
    var e1 := ApprovedLate(info, paymentId, now, expiresAt);
    var sent: map<nat, Task> := map[2 := RefundSent(TheRefund(info, paymentId))];
    RetryRuns(cfg, Run(cfg, start, e1), 0, info, payment, sent, tally);
    RunSplits(cfg, start, e1, Buying(0));
    var c := Run(cfg, start, e1 + Buying(0));
    StarsArrive(cfg, c, 2, info, payment, PurchaseProcessing, Token(), sent[0 := Posted(2)], Sent(tally));
    RunOfOne(cfg, c, ProviderDelivers(2));
    RunSplits(cfg, start, e1 + Buying(0), [ProviderDelivers(2)]);
  }

  /** Two processes with the same token: one is refused and the buyer refunded, the other one delivers. */
  lemma TwoProcessesDeliverRefunded(cfg: Settings, info: OrderInfo, testPaymentId: string, paymentId: string, now: int,
                                    expiresAt: int)
    requires ProductionShop(cfg) && Deliverable(cfg, info)
    ensures
      var events := ApprovedOnce(info, paymentId, now, expiresAt) + [StartDelivery(0, false), StartDelivery(1, false)]
        + [SendPurchase(0)] + Refusing(0, UserNotFound()) + PayingBack() + [SendPurchase(1), ProviderDelivers(2)];
      var tally := Run(cfg, Begin(cfg, info, testPaymentId), events).tally;
      EndsRefunded(tally, Word({2}, {0, 1}), ORDERLY.(overlapped := true)) && tally.approvals == 1
  {
    ApprovedOnceRuns(cfg, info, testPaymentId, paymentId, now, expiresAt);
    hide Run, Begin, Step, Stage, ApprovedOnce, Refusing, PayingBack, Charged, Refunding, TheRefund, Deliverable;
    var start, payment := Begin(cfg, info, testPaymentId), Charged(info, paymentId);
    var tally := NoteOverlap(TallyApproved(info), true);
    var e0 := ApprovedOnce(info, paymentId, now, expiresAt);
    BothRead(cfg, Run(cfg, start, e0), info, payment, TallyApproved(info));
    RunSplits(cfg, start, e0, [StartDelivery(0, false), StartDelivery(1, false)]);
    var e1 := e0 + [StartDelivery(0, false), StartDelivery(1, false)];
    var both, rest: map<nat, Task> := map[0 := Permit, 1 := Permit], map[1 := Permit];
    PurchaseIsSent(cfg, Run(cfg, start, e1), 0, info, payment, PurchaseProcessing, Token(), both, tally);
    RunOfOne(cfg, Run(cfg, start, e1), SendPurchase(0));
    RunSplits(cfg, start, e1, [SendPurchase(0)]);
    var e2 := e1 + [SendPurchase(0)];
    assert both[0 := Posted(1)] == rest[0 := Posted(1)];
    RefusingRuns(cfg, Run(cfg, start, e2), 0, UserNotFound(), 1, RefundRequired, info, payment, Token(), rest, Sent(tally));
    RunSplits(cfg, start, e2, Refusing(0, UserNotFound()));
    var e3 := e2 + Refusing(0, UserNotFound());
    PayingBackRuns(cfg, Run(cfg, start, e3), info, paymentId, rest, Denied(Sent(tally), 1));
    RunSplits(cfg, start, e3, PayingBack());
    var e4 := e3 + PayingBack();
    SecondPurchaseArrives(cfg, Run(cfg, start, e4), info, Refunding(info, paymentId), RefundRequired, Refused(),
                          rest[2 := RefundSent(TheRefund(info, paymentId))], TallyRefunded(tally, info, paymentId));
    RunSplits(cfg, start, e4, [SendPurchase(1), ProviderDelivers(2)]);
  }

  lemma SecondPurchaseArrives(cfg: Settings, c: Cell, info: OrderInfo, payment: Payment, status: OrderStatus,
                              attempt: Attempt, tasks: map<nat, Task>, tally: Tally)
    requires Stage(c, info, payment, status, Some(attempt), tasks, tally)
    requires 1 in tasks && tasks[1] == Permit && tally.posts == 2
    ensures Run(cfg, c, [SendPurchase(1), ProviderDelivers(2)]).tally == Delivered(Sent(tally), 2)
  {
    PurchaseIsSent(cfg, c, 1, info, payment, status, attempt, tasks, tally);
    StarsArrive(cfg, Step(cfg, c, SendPurchase(1)), 2, info, payment, status, attempt, tasks[1 := Posted(2)], Sent(tally));
    RunOfTwo(cfg, c, SendPurchase(1), ProviderDelivers(2));
    hide Run, Step;
  }
}
