/**
 Whole calls of the order service as runs of the protocol: a call is a first transaction, messages to a provider and
 a second transaction, and other workers do anything they like in between.
 */
module OrderCalls {
  import opened Domain
  import opened Ledger
  import opened OrderFlow
  import opened Protocol

  // ---------------------------------------------------------------- other workers

  predicate ByOthers(e: Event, t: nat) {
    e.Transact? || e.ProviderDelivers? || e.task != t
  }

  /** What other workers and the providers do while this call is in flight. */
  datatype Meanwhile = Meanwhile(untilSent: seq<Event>, untilAnswered: seq<Event>, untilApplied: seq<Event>)

  ghost predicate Others(events: seq<Event>, t: nat) {
    forall e :: e in events ==> ByOthers(e, t)
  }

  ghost predicate Undirected(m: Meanwhile, t: nat) {
    Others(m.untilSent, t) && Others(m.untilAnswered, t) && Others(m.untilApplied, t)
  }

  lemma OtherKeepsTask(cfg: Settings, c: Cell, e: Event, t: nat)
    requires ByOthers(e, t) && t in c.tasks
    ensures t in Step(cfg, c, e).tasks && Step(cfg, c, e).tasks[t] == c.tasks[t]
  {
    hide Execute, BeginDelivery, ApplyResult, ApproveBalanceRetry, FinishRefund, BeginRefund, BeginReconciliation;
    hide BeginTestConfirmation, EndTestConfirmation, InitiateYoo, IsDefiniteFailure, IsQueued, RefundMatches, DeliveryRunning;
  }

  lemma {:induction false} OthersKeepTask(cfg: Settings, c: Cell, events: seq<Event>, t: nat)
    requires Others(events, t) && t in c.tasks
    ensures t in Run(cfg, c, events).tasks && Run(cfg, c, events).tasks[t] == c.tasks[t]
  {
    if events != [] {
      OthersKeepTask(cfg, c, events[..|events| - 1], t);
      OtherKeepsTask(cfg, Run(cfg, c, events[..|events| - 1]), events[|events| - 1], t);
      hide Step;
    }
  }

  /** A worker's own event after a stretch of other workers' events. */
  lemma OwnEventRuns(cfg: Settings, c: Cell, others: seq<Event>, e: Event, t: nat)
    requires Others(others, t) && t in c.tasks
    ensures Run(cfg, c, others + [e]) == Step(cfg, Run(cfg, c, others), e)
    ensures t in Run(cfg, c, others).tasks && Run(cfg, c, others).tasks[t] == c.tasks[t]
  {
    OthersKeepTask(cfg, c, others, t);
    RunSplits(cfg, c, others, [e]);
    RunOfOne(cfg, Run(cfg, c, others), e);
  }

  function Committed(r: Rec, res: Result<Rec>): Rec {
    if res.Ok? then res.value else r
  }

  // ---------------------------------------------------------------- asking the Stars provider

  /** No reply means that the call to the provider raised. */
  function AnswerOf(reply: Option<PurchaseResult>): PurchaseResult {
    if reply.Some? then reply.value else UncertainResult(PurchaseProviderResponseUncertain)
  }

  /** The answer that the second transaction applies, if the call gets that far. */
  function Applied(next: Next, reply: Option<PurchaseResult>): Option<PurchaseResult> {
    match next
    case Stop => None
    case Start => Some(AnswerOf(reply))
    case Check(_) => reply
    case GiveUp(code) => Some(UncertainResult(code))
  }

  function AskEvents(t: nat, next: Next, reply: Option<PurchaseResult>, m: Meanwhile): seq<Event> {
    match next
    case Stop => []
    case Start => m.untilSent + [SendPurchase(t)] + (m.untilAnswered + [AnswerPurchase(t, AnswerOf(reply))]) + m.untilApplied
    case Check(_) => if reply.None? then [] else m.untilAnswered + [AnswerCheck(t, reply.value)] + m.untilApplied
    case GiveUp(_) => m.untilApplied
  }

  function LastEvents(t: nat, next: Next, reply: Option<PurchaseResult>, clash: bool, stale: bool): seq<Event> {
    if Applied(next, reply).Some? then [Apply(t, clash, stale)] else if next.Check? then [Crash(t)] else []
  }

  /** What the first transaction left for the call to go on with. */
  ghost predicate Prepared(c: Cell, t: nat, next: Next) {
    match next
    case Stop => true
    case Start => t in c.tasks && c.tasks[t].Permit?
    case Check(_) => t in c.tasks && c.tasks[t].Checking?
    case GiveUp(code) => t in c.tasks && c.tasks[t].Holding? && c.tasks[t].result == UncertainResult(code)
  }

  ghost predicate Holds(c: Cell, t: nat, res: PurchaseResult) {
    t in c.tasks && c.tasks[t].Holding? && c.tasks[t].result == res
  }

  lemma AnswersAreHeld(cfg: Settings, c: Cell, t: nat, res: PurchaseResult)
    requires t in c.tasks
    ensures c.tasks[t].Permit? ==>
              var after := Step(cfg, c, SendPurchase(t)); t in after.tasks && after.tasks[t].Posted?
    ensures c.tasks[t].Posted? ==> Holds(Step(cfg, c, AnswerPurchase(t, res)), t, res)
    ensures c.tasks[t].Checking? ==> Holds(Step(cfg, c, AnswerCheck(t, res)), t, res)
    ensures Step(cfg, c, Crash(t)).rec == c.rec
  {
    hide IsDefiniteFailure;
  }

  lemma ApplyCommits(cfg: Settings, c: Cell, t: nat, res: PurchaseResult, clash: bool, stale: bool)
    requires Holds(c, t, res)
    ensures Step(cfg, c, Apply(t, clash, stale)).rec == Committed(c.rec, ApplyResult(c.rec, res, clash, stale))
  {
    hide ApplyResult, IsQueued;
  }

  lemma PurchaseIsHeld(cfg: Settings, c: Cell, t: nat, reply: Option<PurchaseResult>, m: Meanwhile)
    requires Undirected(m, t) && Prepared(c, t, Start)
    ensures Holds(Run(cfg, c, AskEvents(t, Start, reply, m)), t, AnswerOf(reply))
  {
    var answer := AnswerPurchase(t, AnswerOf(reply));
    hide Run, Step, Others, AnswerOf;
    OwnEventRuns(cfg, c, m.untilSent, SendPurchase(t), t);
    AnswersAreHeld(cfg, Run(cfg, c, m.untilSent), t, AnswerOf(reply));
    var c1 := Run(cfg, c, m.untilSent + [SendPurchase(t)]);
    OwnEventRuns(cfg, c1, m.untilAnswered, answer, t);
    AnswersAreHeld(cfg, Run(cfg, c1, m.untilAnswered), t, AnswerOf(reply));
    RunSplits(cfg, c, m.untilSent + [SendPurchase(t)], m.untilAnswered + [answer]);
    var c2 := Run(cfg, c1, m.untilAnswered + [answer]);
    OthersKeepTask(cfg, c2, m.untilApplied, t);
    RunSplits(cfg, c, m.untilSent + [SendPurchase(t)] + (m.untilAnswered + [answer]), m.untilApplied);
  }

  lemma StatusIsHeld(cfg: Settings, c: Cell, t: nat, requestId: string, res: PurchaseResult, m: Meanwhile)
    requires Undirected(m, t) && Prepared(c, t, Check(requestId))
    ensures Holds(Run(cfg, c, AskEvents(t, Check(requestId), Some(res), m)), t, res)
  {
    hide Run, Step, Others;
    OwnEventRuns(cfg, c, m.untilAnswered, AnswerCheck(t, res), t);
    AnswersAreHeld(cfg, Run(cfg, c, m.untilAnswered), t, res);
    OthersKeepTask(cfg, Run(cfg, c, m.untilAnswered + [AnswerCheck(t, res)]), m.untilApplied, t);
    RunSplits(cfg, c, m.untilAnswered + [AnswerCheck(t, res)], m.untilApplied);
  }

  lemma AskedIsHeld(cfg: Settings, c: Cell, t: nat, next: Next, reply: Option<PurchaseResult>, m: Meanwhile)
    requires Undirected(m, t) && Prepared(c, t, next) && Applied(next, reply).Some?
    ensures Holds(Run(cfg, c, AskEvents(t, next, reply, m)), t, Applied(next, reply).value)
  {
    match next
    case Start => PurchaseIsHeld(cfg, c, t, reply, m);
    case Check(requestId) => StatusIsHeld(cfg, c, t, requestId, reply.value, m);
    case GiveUp(_) => OthersKeepTask(cfg, c, m.untilApplied, t);
  }

  /** The rows after the provider was asked and the answer applied to the rows as they are by then. */
  lemma AskRuns(cfg: Settings, c: Cell, t: nat, next: Next, reply: Option<PurchaseResult>, m: Meanwhile, clash: bool, stale: bool)
    requires Undirected(m, t) && Prepared(c, t, next)
    ensures
      var later := Run(cfg, c, AskEvents(t, next, reply, m)).rec;
      var answer := Applied(next, reply);
      Run(cfg, c, AskEvents(t, next, reply, m) + LastEvents(t, next, reply, clash, stale)).rec
        == if answer.Some? then Committed(later, ApplyResult(later, answer.value, clash, stale)) else c.rec
  {
    var asked, last := AskEvents(t, next, reply, m), LastEvents(t, next, reply, clash, stale);
    RunSplits(cfg, c, asked, last);
    if Applied(next, reply).Some? {
      AskedIsHeld(cfg, c, t, next, reply, m);
      hide Run, Step, AskEvents, ApplyResult;
      ApplyCommits(cfg, Run(cfg, c, asked), t, Applied(next, reply).value, clash, stale);
      RunOfOne(cfg, Run(cfg, c, asked), Apply(t, clash, stale));
    } else if next.Check? {
      AnswersAreHeld(cfg, c, t, AnswerOf(reply));
      hide Step, ApplyResult;
      RunOfOne(cfg, c, Crash(t));
    }
  }

  lemma CallRuns(cfg: Settings, c: Cell, begin: Event, t: nat, next: Next, reply: Option<PurchaseResult>, m: Meanwhile,
                 clash: bool, stale: bool)
    requires Undirected(m, t) && Prepared(Step(cfg, c, begin), t, next)
    ensures
      var later := Run(cfg, c, [begin] + AskEvents(t, next, reply, m)).rec;
      var answer := Applied(next, reply);
      Run(cfg, c, [begin] + AskEvents(t, next, reply, m) + LastEvents(t, next, reply, clash, stale)).rec
        == if answer.Some? then Committed(later, ApplyResult(later, answer.value, clash, stale)) else Step(cfg, c, begin).rec
  {
    var asked, last := AskEvents(t, next, reply, m), LastEvents(t, next, reply, clash, stale);
    RunOfOne(cfg, c, begin);
    hide Run, Step, AskEvents, LastEvents, ApplyResult, Applied, Undirected, Prepared;
    AskRuns(cfg, Run(cfg, c, [begin]), t, next, reply, m, clash, stale);
    RunSplits(cfg, c, [begin], asked);
    RunSplits(cfg, c, [begin], asked + last);
    assert [begin] + asked + last == [begin] + (asked + last);
  }

  // ---------------------------------------------------------------- deliveries

  function NextOf(begun: Result<(Rec, Next)>): Next {
    if begun.Ok? then begun.value.1 else Stop
  }

  function DeliveryEvents(cfg: Settings, r: Rec, t: nat, hold: bool, reply: Option<PurchaseResult>, m: Meanwhile): seq<Event> {
    [StartDelivery(t, hold)] + AskEvents(t, NextOf(BeginDelivery(cfg, r, hold)), reply, m)
  }

  /** A whole call of `deliver_paid_order` that finds the rows `r`. */
  function WholeDelivery(cfg: Settings, r: Rec, t: nat, hold: bool, reply: Option<PurchaseResult>, m: Meanwhile, clash: bool, stale: bool)
    : seq<Event>
  {
    DeliveryEvents(cfg, r, t, hold, reply, m) + LastEvents(t, NextOf(BeginDelivery(cfg, r, hold)), reply, clash, stale)
  }

  /** The rows it leaves behind, when its second transaction loads `later`. */
  function Delivered(cfg: Settings, r: Rec, hold: bool, reply: Option<PurchaseResult>, later: Rec, clash: bool, stale: bool): Rec {
    var begun := BeginDelivery(cfg, r, hold);
    var answer := Applied(NextOf(begun), reply);
    if begun.Raise? then r
    else if answer.None? then begun.value.0
    else Committed(later, ApplyResult(later, answer.value, clash, stale))
  }

  lemma DeliveryPrepares(cfg: Settings, c: Cell, t: nat, hold: bool)
    requires t !in c.tasks
    ensures
      var begun, after := BeginDelivery(cfg, c.rec, hold), Step(cfg, c, StartDelivery(t, hold));
      after.rec == (if begun.Ok? then begun.value.0 else c.rec) && Prepared(after, t, NextOf(begun))
  {
    hide BeginDelivery, DeliveryRunning;
  }

  /** Whatever the others do, a delivery is a run of the protocol in each of its four cases. */
  lemma DeliveryIsRun(cfg: Settings, c: Cell, t: nat, hold: bool, reply: Option<PurchaseResult>, m: Meanwhile, clash: bool, stale: bool)
    requires t !in c.tasks && Undirected(m, t)
    ensures
      var later := Run(cfg, c, DeliveryEvents(cfg, c.rec, t, hold, reply, m)).rec;
      Run(cfg, c, WholeDelivery(cfg, c.rec, t, hold, reply, m, clash, stale)).rec
        == Delivered(cfg, c.rec, hold, reply, later, clash, stale)
  {
    DeliveryPrepares(cfg, c, t, hold);
    hide Run, Step, BeginDelivery, AskEvents, LastEvents, ApplyResult, Undirected, Prepared;
    CallRuns(cfg, c, StartDelivery(t, hold), t, NextOf(BeginDelivery(cfg, c.rec, hold)), reply, m, clash, stale);
  }

  // ---------------------------------------------------------------- reconciliations

  function AskOf(begun: Result<(Rec, Option<string>)>): Next {
    if begun.Ok? && begun.value.1.Some? then Check(begun.value.1.value) else Stop
  }

  function ReconciliationEvents(cfg: Settings, r: Rec, t: nat, reply: Option<PurchaseResult>, m: Meanwhile): seq<Event> {
    [StartReconciliation(t)] + AskEvents(t, AskOf(BeginReconciliation(cfg, r)), reply, m)
  }

  /** A whole call of `reconcile_order` that finds the rows `r`. */
  function WholeReconciliation(cfg: Settings, r: Rec, t: nat, reply: Option<PurchaseResult>, m: Meanwhile, clash: bool, stale: bool)
    : seq<Event>
  {
    ReconciliationEvents(cfg, r, t, reply, m) + LastEvents(t, AskOf(BeginReconciliation(cfg, r)), reply, clash, stale)
  }

  function Reconciled(cfg: Settings, r: Rec, reply: Option<PurchaseResult>, later: Rec, clash: bool, stale: bool): Rec {
    var begun := BeginReconciliation(cfg, r);
    var answer := Applied(AskOf(begun), reply);
    if begun.Raise? then r
    else if answer.None? then begun.value.0
    else Committed(later, ApplyResult(later, answer.value, clash, stale))
  }

  lemma ReconciliationPrepares(cfg: Settings, c: Cell, t: nat)
    requires t !in c.tasks
    ensures
      var begun, after := BeginReconciliation(cfg, c.rec), Step(cfg, c, StartReconciliation(t));
      after.rec == (if begun.Ok? then begun.value.0 else c.rec) && Prepared(after, t, AskOf(begun))
  {
    hide BeginReconciliation;
  }

  lemma ReconciliationIsRun(cfg: Settings, c: Cell, t: nat, reply: Option<PurchaseResult>, m: Meanwhile, clash: bool, stale: bool)
    requires t !in c.tasks && Undirected(m, t)
    ensures
      var later := Run(cfg, c, ReconciliationEvents(cfg, c.rec, t, reply, m)).rec;
      Run(cfg, c, WholeReconciliation(cfg, c.rec, t, reply, m, clash, stale)).rec
        == Reconciled(cfg, c.rec, reply, later, clash, stale)
  {
    ReconciliationPrepares(cfg, c, t);
    hide Run, Step, BeginReconciliation, AskEvents, LastEvents, ApplyResult, Undirected, Prepared;
    CallRuns(cfg, c, StartReconciliation(t), t, AskOf(BeginReconciliation(cfg, c.rec)), reply, m, clash, stale);
  }

  // ---------------------------------------------------------------- refunds

  /** From the preparation of a refund to the moment its answer, if there is one, is to be recorded. */
  function RefundEvents(r: Rec, t: nat, m: Meanwhile): seq<Event> {
    if BeginRefund(r).Raise? then [StartRefund(t)]
    else [StartRefund(t)] + (m.untilSent + [SendRefund(t)]) + m.untilAnswered
  }

  function WholeRefund(r: Rec, t: nat, reply: Option<Refund>, m: Meanwhile, clash: bool): seq<Event> {
    RefundEvents(r, t, m)
    + if BeginRefund(r).Raise? then [] else if reply.None? then [Crash(t)] else [EndRefund(t, reply.value, clash)]
  }

  function RefundRecorded(r: Rec, reply: Option<Refund>, later: Rec, clash: bool): Rec {
    var begun := BeginRefund(r);
    if begun.Raise? then r
    else if reply.Some? && RefundMatches(begun.value.1.paymentId, begun.value.1.amount, reply.value)
    then Committed(later, FinishRefund(later, reply.value, clash))
    else later
  }

  lemma RefundSteps(cfg: Settings, c: Cell, t: nat, refund: Refund, clash: bool)
    ensures t !in c.tasks ==>
              var begun, after := BeginRefund(c.rec), Step(cfg, c, StartRefund(t));
              && after.rec == (if begun.Ok? then begun.value.0 else c.rec)
              && (begun.Ok? ==> t in after.tasks && after.tasks[t] == RefundPermit(begun.value.1))
    ensures t in c.tasks && c.tasks[t].RefundPermit? ==>
              var after := Step(cfg, c, SendRefund(t));
              t in after.tasks && after.tasks[t] == RefundSent(c.tasks[t].call)
    ensures t in c.tasks && c.tasks[t].RefundSent? ==>
              Step(cfg, c, EndRefund(t, refund, clash)).rec
              == if RefundMatches(c.tasks[t].call.paymentId, c.tasks[t].call.amount, refund)
                 then Committed(c.rec, FinishRefund(c.rec, refund, clash)) else c.rec
    ensures t in c.tasks ==> Step(cfg, c, Crash(t)).rec == c.rec
  {
    hide BeginRefund, FinishRefund, RefundMatches;
  }

  lemma RefundIsSent(cfg: Settings, c: Cell, t: nat, m: Meanwhile)
    requires t !in c.tasks && Undirected(m, t) && BeginRefund(c.rec).Ok?
    ensures
      var after := Run(cfg, c, RefundEvents(c.rec, t, m));
      t in after.tasks && after.tasks[t] == RefundSent(BeginRefund(c.rec).value.1)
  {
    var start, none := StartRefund(t), Refund("", "", RefundPending, 0, "");
    hide Run, Step, BeginRefund, Others;
    RefundSteps(cfg, c, t, none, false);
    RunOfOne(cfg, c, start);
    var c1 := Run(cfg, c, [start]);
    OwnEventRuns(cfg, c1, m.untilSent, SendRefund(t), t);
    RefundSteps(cfg, Run(cfg, c1, m.untilSent), t, none, false);
    RunSplits(cfg, c, [start], m.untilSent + [SendRefund(t)]);
    OthersKeepTask(cfg, Run(cfg, c1, m.untilSent + [SendRefund(t)]), m.untilAnswered, t);
    RunSplits(cfg, c, [start] + (m.untilSent + [SendRefund(t)]), m.untilAnswered);
  }

  lemma RefundIsRun(cfg: Settings, c: Cell, t: nat, reply: Option<Refund>, m: Meanwhile, clash: bool)
    requires t !in c.tasks && Undirected(m, t)
    ensures
      var later := Run(cfg, c, RefundEvents(c.rec, t, m)).rec;
      Run(cfg, c, WholeRefund(c.rec, t, reply, m, clash)).rec == RefundRecorded(c.rec, reply, later, clash)
  {
    var events, refund := RefundEvents(c.rec, t, m), if reply.Some? then reply.value else Refund("", "", RefundPending, 0, "");
    var sent := Run(cfg, c, events);
    if BeginRefund(c.rec).Raise? {
      RefundSteps(cfg, c, t, refund, clash);
      RunOfOne(cfg, c, StartRefund(t));
      hide Run, Step, BeginRefund;
      assert WholeRefund(c.rec, t, reply, m, clash) == [StartRefund(t)];
    } else {
      RefundIsSent(cfg, c, t, m);
      RefundSteps(cfg, sent, t, refund, clash);
      var last := if reply.None? then Crash(t) else EndRefund(t, refund, clash);
      RunOfOne(cfg, sent, last);
      RunSplits(cfg, c, events, [last]);
      hide Run, Step, BeginRefund, FinishRefund, RefundMatches, RefundEvents;
    }
  }
}
