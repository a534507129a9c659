/**
 One order among any number of workers: its rows, the calls in flight about it, and a tally of what
 has happened. A step is one committed transaction, one message to or from a provider, or a crash.
 */
module Protocol {
  import opened Domain
  import opened Ledger
  import opened OrderFlow
  import opened OrderInvariants

  /** What one call about the order remembers between two of its steps. */
  datatype Task =
    | Permit                                       // may send the purchase
    | Posted(purchase: nat)                        // purchase sent, no answer yet
    | Checking(requestId: string, locked: bool, purchase: nat)     // may ask for the status of a request
    | Holding(result: PurchaseResult, posted: bool, locked: bool, purchase: nat)  // has an answer to apply
    | RetrySeen                                    // read WAITING_FOR_MERCHANT_BALANCE
    | TestConfirming
    | ChargePermit(key: Uuid, amount: int)
    | RefundPermit(call: RefundCall)
    | RefundSent(call: RefundCall)

  datatype ChargePost = ChargePost(key: Uuid, amount: int)

  /** What the provider did and said about each purchase; purchases are numbered from zero as they are sent. */
  datatype Word = Word(
    delivered: set<nat>,         // it sent Stars for these
    denied: set<nat>)            // it reported a definite failure of these

  /** What the theorems about retried purchases have to exclude. */
  datatype Disorder = Disorder(
    overlapped: bool,            // a delivery began while another one was running
    lostAnswer: bool,            // a worker crashed between sending a purchase and committing its answer
    reusedRequest: bool,         // the provider answered with another order's request identifier
    outdated: bool)              // a retry was approved that no longer waited for the merchant balance

  /** History variables: nothing in the rows depends on them. */
  datatype Tally = Tally(
    posts: nat,                  // purchases sent to the provider
    approvals: nat,              // balance retries approved
    queued: nat,                 // the purchase whose request identifier was stored last
    word: Word,
    disorder: Disorder,
    cancelSeen: bool,            // a cancelled payment snapshot was accepted
    flipped: bool,               // a succeeded one was accepted after it
    charges: seq<ChargePost>,    // payment creations sent to YooKassa
    refunds: seq<RefundCall>)    // refunds sent to YooKassa

  datatype Cell = Cell(rec: Rec, tasks: map<nat, Task>, tally: Tally)

  /** Transactions that are a whole operation of their own. */
  datatype Op =
    | SetupTon(amount: int, comment: string, destination: string, expiresAt: int)
    | Snap(snap: Snapshot, clash: bool)
    | SeeTon(seen: Observation, now: int, clash: bool, stale: bool)
    | Expire(now: int)
    | Cancel
    | SendToReview
    | ResendNotice
    | SyncRefundNotice(refund: Refund)
    | ConfirmRefund

  datatype Event =
    | Transact(op: Op)
    | StartCharge(task: nat, now: int, expiresAt: int)
    | SendCharge(task: nat)
    | StartTest(task: nat)
    | EndTest(task: nat, succeeded: bool)
    | StartDelivery(task: nat, hold: bool)
    | SendPurchase(task: nat)
    | AnswerPurchase(task: nat, result: PurchaseResult)
    | AnswerCheck(task: nat, result: PurchaseResult)
    | Apply(task: nat, clash: bool, stale: bool)
    | StartReconciliation(task: nat)
    | ReadForRetry(task: nat)
    | Approve(task: nat)
    | StartRefund(task: nat)
    | SendRefund(task: nat)
    | EndRefund(task: nat, refund: Refund, clash: bool)
    | ProviderDelivers(purchase: nat)
    | Crash(task: nat)

  /** Tasks of a delivery, which hold the per-order lock of their process. */
  predicate Locked(task: Task) {
    match task
    case Permit => true
    case Posted(_) => true
    case Checking(_, locked, _) => locked
    case Holding(_, _, locked, _) => locked
    case _ => false
  }

  /** One process at work, no answer lost in a crash, and fresh request identifiers. */
  predicate Orderly(tally: Tally) {
    !tally.disorder.overlapped && !tally.disorder.lostAnswer && !tally.disorder.reusedRequest
  }

  /** The provider delivers a purchase and reports a definite failure of the same one. */
  predicate Contradicted(tally: Tally) {
    tally.word.delivered * tally.word.denied != {}
  }

  predicate AfterPost(task: Task) {
    task.Posted? || (task.Holding? && task.posted)
  }

  ghost predicate DeliveryRunning(c: Cell) {
    exists t :: t in c.tasks && Locked(c.tasks[t])
  }

  function Execute(cfg: Settings, r: Rec, op: Op): Result<Rec> {
    match op
    case SetupTon(amount, comment, destination, expiresAt) => SetupTonPayment(r, amount, comment, destination, expiresAt)
    case Snap(snap, clash) => ApplySnapshot(r, snap, clash)
    case SeeTon(seen, now, clash, stale) => RecordTonObservation(cfg, r, seen, now, clash, stale)
    case Expire(now) => ExpireIfNeeded(r, now)
    case Cancel => CancelOrder(r)
    case SendToReview => AdminReview(r)
    case ResendNotice => Ok(Resend(r))
    case SyncRefundNotice(refund) => SyncRefund(r, refund)
    case ConfirmRefund => MarkRefunded(r)
  }

  /** A block that raises leaves no trace in the rows. */
  function Commit(c: Cell, res: Result<Rec>): Cell {
    if res.Ok? then c.(rec := res.value) else c
  }

  function Drop(tasks: map<nat, Task>, t: nat): map<nat, Task> {
    map u | u in tasks && u != t :: tasks[u]
  }

  function Observe(tally: Tally, op: Op): Tally {
    if op.Snap? then
      tally.(cancelSeen := tally.cancelSeen || op.snap.status.SnapCanceled?,
             flipped := tally.flipped || (tally.cancelSeen && op.snap.status.SnapSucceeded?))
    else tally
  }

  /** A provider answer about a purchase: a definite failure is a promise. */
  function Hear(tally: Tally, purchase: nat, result: PurchaseResult): Tally {
    if IsDefiniteFailure(result) then tally.(word := tally.word.(denied := tally.word.denied + {purchase})) else tally
  }

  function NoteOverlap(tally: Tally, seen: bool): Tally {
    tally.(disorder := tally.disorder.(overlapped := tally.disorder.overlapped || seen))
  }

  function NoteReuse(tally: Tally, seen: bool): Tally {
    tally.(disorder := tally.disorder.(reusedRequest := tally.disorder.reusedRequest || seen))
  }

  function NoteQueued(tally: Tally, stored: bool, purchase: nat): Tally {
    if stored then tally.(queued := purchase) else tally
  }

  function NoteLoss(tally: Tally, seen: bool): Tally {
    tally.(disorder := tally.disorder.(lostAnswer := tally.disorder.lostAnswer || seen))
  }

  function NoteApproval(tally: Tally, seen: bool): Tally {
    tally.(approvals := tally.approvals + 1,
           disorder := tally.disorder.(outdated := tally.disorder.outdated || seen))
  }

  function Schedule(c: Cell, t: nat, next: Next): Cell {
    match next
    case Stop => c
    case Start => c.(tasks := c.tasks[t := Permit])
    case Check(requestId) => c.(tasks := c.tasks[t := Checking(requestId, true, c.tally.queued)])
    case GiveUp(code) => c.(tasks := c.tasks[t := Holding(UncertainResult(code), false, true, c.tally.posts)])
  }

  ghost function StepDelivery(cfg: Settings, c: Cell, t: nat, hold: bool): Cell {
    var watched := c.(tally := NoteOverlap(c.tally, DeliveryRunning(c)));
    var begun := BeginDelivery(cfg, c.rec, hold);
    if begun.Raise? then watched else Schedule(watched.(rec := begun.value.0), t, begun.value.1)
  }

  function StepApply(c: Cell, t: nat, clash: bool, stale: bool): Cell
    requires t in c.tasks && c.tasks[t].Holding?
  {
    var result := c.tasks[t].result;
    var after := ApplyResult(c.rec, result, clash, stale);
    var tally := NoteReuse(c.tally, IsQueued(result) && clash);
    if after.Raise? then Cell(c.rec, Drop(c.tasks, t), tally)
    else Cell(after.value, Drop(c.tasks, t), NoteQueued(tally, StoresRequest(c.rec, result), c.tasks[t].purchase))
  }

  function StepApprove(c: Cell, t: nat): Cell {
    var after := ApproveBalanceRetry(c.rec);
    var idle := c.(tasks := Drop(c.tasks, t));
    if after.Raise? then idle
    else
      idle.(rec := after.value,
            tally := NoteApproval(c.tally, !c.rec.order.status.WaitingForMerchantBalance?))
  }

  function StepEndRefund(c: Cell, t: nat, refund: Refund, clash: bool): Cell
    requires t in c.tasks && c.tasks[t].RefundSent?
  {
    var call := c.tasks[t].call;
    var idle := c.(tasks := Drop(c.tasks, t));
    if RefundMatches(call.paymentId, call.amount, refund) then Commit(idle, FinishRefund(c.rec, refund, clash)) else idle
  }

  /** Whether the event can happen at all in this state. */
  predicate Enabled(cfg: Settings, c: Cell, e: Event) {
    match e
    case Transact(_) => true
    case StartCharge(t, _, _) => t !in c.tasks
    case SendCharge(t) => t in c.tasks && c.tasks[t].ChargePermit?
    case StartTest(t) => t !in c.tasks
    case EndTest(t, _) => t in c.tasks && c.tasks[t].TestConfirming? && cfg.testMode
    case StartDelivery(t, _) => t !in c.tasks
    case SendPurchase(t) => t in c.tasks && c.tasks[t].Permit?
    case AnswerPurchase(t, _) => t in c.tasks && c.tasks[t].Posted?
    case AnswerCheck(t, _) => t in c.tasks && c.tasks[t].Checking?
    case Apply(t, _, _) => t in c.tasks && c.tasks[t].Holding?
    case StartReconciliation(t) => t !in c.tasks
    case ReadForRetry(t) => t !in c.tasks && c.rec.order.status.WaitingForMerchantBalance?
    case Approve(t) => t in c.tasks && c.tasks[t].RetrySeen?
    case StartRefund(t) => t !in c.tasks
    case SendRefund(t) => t in c.tasks && c.tasks[t].RefundPermit?
    case EndRefund(t, _, _) => t in c.tasks && c.tasks[t].RefundSent?
    case ProviderDelivers(k) => k < c.tally.posts
    case Crash(t) => t in c.tasks
  }

  ghost function Happen(cfg: Settings, c: Cell, e: Event): Cell
    requires Enabled(cfg, c, e)
  {
    match e
    case Transact(op) =>
      var res := Execute(cfg, c.rec, op);
      if res.Ok? then Cell(res.value, c.tasks, Observe(c.tally, op)) else c
    case StartCharge(t, now, expiresAt) =>
      var res := InitiateYoo(c.rec, now, expiresAt);
      if res.Raise? then c
      else if res.value.1.Reuse? then c.(rec := res.value.0)
      else c.(rec := res.value.0, tasks := c.tasks[t := ChargePermit(res.value.1.key, res.value.1.amount)])
    case SendCharge(t) =>
      c.(tasks := Drop(c.tasks, t),
         tally := c.tally.(charges := c.tally.charges + [ChargePost(c.tasks[t].key, c.tasks[t].amount)]))
    case StartTest(t) =>
      var res := BeginTestConfirmation(cfg, c.rec);
      if res.Raise? || !res.value.1 then c
      else c.(rec := res.value.0, tasks := c.tasks[t := TestConfirming])
    case EndTest(t, succeeded) =>
      Commit(c.(tasks := Drop(c.tasks, t)), EndTestConfirmation(c.rec, succeeded))
    case StartDelivery(t, hold) => StepDelivery(cfg, c, t, hold)
    case SendPurchase(t) =>
      c.(tasks := c.tasks[t := Posted(c.tally.posts)], tally := c.tally.(posts := c.tally.posts + 1))
    case AnswerPurchase(t, result) =>
      c.(tasks := c.tasks[t := Holding(result, true, true, c.tasks[t].purchase)],
         tally := Hear(c.tally, c.tasks[t].purchase, result))
    case AnswerCheck(t, result) =>
      c.(tasks := c.tasks[t := Holding(result, false, c.tasks[t].locked, c.tasks[t].purchase)],
         tally := Hear(c.tally, c.tasks[t].purchase, result))
    case Apply(t, clash, stale) => StepApply(c, t, clash, stale)
    case StartReconciliation(t) =>
      var res := BeginReconciliation(cfg, c.rec);
      if res.Raise? then c
      else if res.value.1.None? then c.(rec := res.value.0)
      else c.(rec := res.value.0, tasks := c.tasks[t := Checking(res.value.1.value, false, c.tally.queued)])
    case ReadForRetry(t) => c.(tasks := c.tasks[t := RetrySeen])
    case Approve(t) => StepApprove(c, t)
    case StartRefund(t) =>
      var res := BeginRefund(c.rec);
      if res.Raise? then c
      else c.(rec := res.value.0, tasks := c.tasks[t := RefundPermit(res.value.1)])
    case SendRefund(t) =>
      c.(tasks := c.tasks[t := RefundSent(c.tasks[t].call)],
         tally := c.tally.(refunds := c.tally.refunds + [c.tasks[t].call]))
    case EndRefund(t, refund, clash) => StepEndRefund(c, t, refund, clash)
    case ProviderDelivers(k) =>
      c.(tally := c.tally.(word := c.tally.word.(delivered := c.tally.word.delivered + {k})))
    case Crash(t) =>
      c.(tasks := Drop(c.tasks, t),
         tally := NoteLoss(c.tally, AfterPost(c.tasks[t])))
  }

  ghost function Step(cfg: Settings, c: Cell, e: Event): Cell {
    if Enabled(cfg, c, e) then Happen(cfg, c, e) else c
  }

  function NoTally(): Tally {
    Tally(0, 0, 0, Word({}, {}), Disorder(false, false, false, false), false, false, [], [])
  }

  function Begin(cfg: Settings, info: OrderInfo, testPaymentId: string): Cell {
    Cell(CreatedRows(cfg, info, testPaymentId), map[], NoTally())
  }

  /** A snapshot of the order's own payment. */
  function Report(info: OrderInfo, paymentId: string, status: SnapshotStatus): Snapshot {
    Snapshot(paymentId, status, info.rubAmount, "RUB", info.number, None, true, true)
  }

  /** The order after any sequence of events, in the order in which they happened. */
  ghost function Run(cfg: Settings, c: Cell, events: seq<Event>): Cell {
    if events == [] then c else Step(cfg, Run(cfg, c, events[..|events| - 1]), events[|events| - 1])
  }

  lemma DeliveryTally(cfg: Settings, c: Cell, t: nat, hold: bool)
    ensures StepDelivery(cfg, c, t, hold).tally == NoteOverlap(c.tally, DeliveryRunning(c))
  {
    hide BeginDelivery, DeliveryRunning;
  }

  lemma {:induction false} RunSplits(cfg: Settings, c: Cell, events: seq<Event>, more: seq<Event>)
    ensures Run(cfg, c, events + more) == Run(cfg, Run(cfg, c, events), more)
  {
    if more == [] {
      assert events + more == events;
    } else {
      RunSplits(cfg, c, events, more[..|more| - 1]);
      assert (events + more)[..|events + more| - 1] == events + more[..|more| - 1];
    }
  }

  lemma RunOfOne(cfg: Settings, c: Cell, e: Event)
    ensures Run(cfg, c, [e]) == Step(cfg, c, e)
  {
    assert [e][..0] == [];
    assert Run(cfg, c, []) == c;
  }

  lemma RunOfTwo(cfg: Settings, c: Cell, a: Event, b: Event)
    ensures Run(cfg, c, [a, b]) == Step(cfg, Step(cfg, c, a), b)
  {
    assert [a, b][..1] == [a] && [a][..0] == [];
    assert Run(cfg, c, [a]) == Step(cfg, Run(cfg, c, []), a);
  }
}
