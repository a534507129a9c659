/**
 What a purchase comes to: every kind of answer leaves exactly the rows it should, and an order is completed exactly by
 an answer that names the transaction of its Stars.
 */
module PurchaseOutcomes {
  import opened Domain
  import opened Ledger
  import opened OrderFlow
  import opened OrderInvariants
  import opened OrderPersistence
  import opened OrderSafety
  import opened Protocol
  import opened PurchaseSafety
  import opened StatusEntries
  import opened OrderTheorems

  // ---------------------------------------------------------------- what an answer leaves behind

  function CodeGiven(res: PurchaseResult): Code {
    if res.code.Some? then res.code.value else PurchaseFailedCode
  }

  /** The order and its attempt may differ, everything else may not. */
  predicate SameOutside(r: Rec, after: Rec) {
    after.payment == r.payment && after.order.info == r.order.info && after.order.payType == r.order.payType
    && after.order.tonHash == r.order.tonHash && after.order.paymentStatus == r.order.paymentStatus
  }

  /** Where the order stands, what the attempt row holds, and which provider identifiers the order row repeats. */
  predicate Stands(r: Rec, status: OrderStatus, attempt: Attempt, requestId: Option<string>, telegramTx: Option<string>) {
    && r.order.status == status && r.attempt == Some(attempt)
    && r.order.requestId == requestId && r.order.telegramTx == telegramTx
  }

  /** A named transaction that no other order holds completes the order. */
  lemma DeliveryIsRecorded(cfg: Settings, r: Rec, res: PurchaseResult, stale: bool)
    requires WellFormed(cfg, r) && r.attempt.Some? && Delivers(res)
    requires Buying(r.order.status) || r.order.status.ManualReview?
    ensures
      var after := Left(r, ApplyResult(r, res, false, stale));
      && Stands(after, Completed, r.attempt.value.(status := AttemptSucceeded, txId := res.txId), r.order.requestId, res.txId)
      && SameOutside(r, after) && after.log[|after.log| - 1..] == [Edge(if r.order.status.ManualReview? then ManualReview else StarsSending, Completed)]
  {
    hide StatusNotes, PaymentFits, MoneyFits;
  }

  /** A transaction of another order is no proof of this one. */
  lemma TakenIsRecorded(cfg: Settings, r: Rec, res: PurchaseResult, stale: bool)
    requires WellFormed(cfg, r) && r.attempt.Some? && Delivers(res)
    requires Buying(r.order.status) || r.order.status.ManualReview?
    ensures
      var after := Left(r, ApplyResult(r, res, true, stale));
      && Stands(after, ManualReview, r.attempt.value.(status := Uncertain, errorCode := Some(DuplicateProviderTransaction)),
                r.order.requestId, r.order.telegramTx)
      && (Buying(r.order.status) ==> after.order.errorCode == Some(DuplicateProviderTransaction)) && SameOutside(r, after)
  {
    hide StatusNotes, PaymentFits, MoneyFits;
  }

  /** A request identifier is stored once, and later answers that still wait leave the order where it is. */
  lemma WaitingIsRecorded(cfg: Settings, r: Rec, res: PurchaseResult, clash: bool, stale: bool)
    requires WellFormed(cfg, r) && r.attempt.Some? && Pends(res)
    requires Buying(r.order.status) || r.order.status.ManualReview?
    ensures
      var after := Left(r, ApplyResult(r, res, clash, stale));
      && (r.order.status.StarsSending? ==>
            Stands(after, StarsSending, r.attempt.value.(status := Processing), r.order.requestId, r.order.telegramTx))
      && (!r.order.status.StarsSending? && !clash ==>
            Stands(after, StarsSending, r.attempt.value.(status := Queued, requestId := res.requestId), res.requestId,
                   r.order.telegramTx))
      && (!r.order.status.StarsSending? && clash ==> after == r)
      && SameOutside(r, after)
  {
    hide StatusNotes, PaymentFits, MoneyFits;
  }

  /** Every other answer fails the attempt or leaves it uncertain, with its code on both rows. */
  lemma FailureIsRecorded(cfg: Settings, r: Rec, res: PurchaseResult, clash: bool, stale: bool)
    requires WellFormed(cfg, r) && r.attempt.Some? && !Pends(res) && !Delivers(res) && Buying(r.order.status)
    ensures
      var after := Left(r, ApplyResult(r, res, clash, stale));
      var code := if res.succeeded then PurchaseReferenceMissing else CodeGiven(res);
      && Stands(after,
                if LacksBalance(res) then WaitingForMerchantBalance else if Refuses(res) then RefundRequired else ManualReview,
                r.attempt.value.(status := if LacksBalance(res) || Refuses(res) then AttemptFailed else Uncertain,
                                 errorCode := Some(code)),
                r.order.requestId, r.order.telegramTx)
      && after.order.errorCode == Some(code) && SameOutside(r, after)
  {
    hide StatusNotes, PaymentFits, MoneyFits;
  }

  /** The same for an order that is reviewed: it only leaves the review for good reasons. */
  lemma FailureUnderReviewIsRecorded(cfg: Settings, r: Rec, res: PurchaseResult, clash: bool, stale: bool)
    requires WellFormed(cfg, r) && r.attempt.Some? && !Pends(res) && !Delivers(res) && r.order.status.ManualReview?
    ensures
      var after := Left(r, ApplyResult(r, res, clash, stale));
      var code := if res.succeeded then PurchaseReferenceMissing else CodeGiven(res);
      && (LacksBalance(res) ==> after == r)
      && (!LacksBalance(res) ==>
            Stands(after, if Refuses(res) then RefundRequired else ManualReview,
                   r.attempt.value.(status := if Refuses(res) then AttemptFailed else Uncertain, errorCode := Some(code)),
                   r.order.requestId, r.order.telegramTx))
      && SameOutside(r, after)
  {
    hide StatusNotes, PaymentFits, MoneyFits;
  }

  /** The two events with which a provider's answer about a purchase reaches the rows. */
  ghost function Told(cfg: Settings, c: Cell, t: nat, res: PurchaseResult, clash: bool, stale: bool): Cell
    requires t in c.tasks && (c.tasks[t].Posted? || c.tasks[t].Checking?)
  {
    Step(cfg, Step(cfg, c, if c.tasks[t].Posted? then AnswerPurchase(t, res) else AnswerCheck(t, res)), Apply(t, clash, stale))
  }

  lemma ToldIsApplied(cfg: Settings, c: Cell, t: nat, res: PurchaseResult, clash: bool, stale: bool)
    requires t in c.tasks && (c.tasks[t].Posted? || c.tasks[t].Checking?)
    ensures Told(cfg, c, t, res, clash, stale).rec == Left(c.rec, ApplyResult(c.rec, res, clash, stale))
  {
    hide ApplyResult, IsDefiniteFailure, IsQueued;
  }

  /** Whoever asked, and however the answer comes, a delivery that is told completes the order under its transaction. */
  lemma ToldDeliveryCompletes(cfg: Settings, c: Cell, t: nat, res: PurchaseResult, stale: bool)
    requires WellFormed(cfg, c.rec) && c.rec.attempt.Some? && Delivers(res)
    requires Buying(c.rec.order.status) || c.rec.order.status.ManualReview?
    requires t in c.tasks && (c.tasks[t].Posted? || c.tasks[t].Checking?)
    ensures
      var after := Told(cfg, c, t, res, false, stale).rec;
      && Stands(after, Completed, c.rec.attempt.value.(status := AttemptSucceeded, txId := res.txId), c.rec.order.requestId, res.txId)
      && SameOutside(c.rec, after)
  {
    ToldIsApplied(cfg, c, t, res, false, stale);
    DeliveryIsRecorded(cfg, c.rec, res, stale);
    hide Told, ApplyResult, WellFormed;
  }

  // ---------------------------------------------------------------- completed orders

  /** The provider gave this answer to worker `t`. */
  predicate Answers(e: Event, t: nat, res: PurchaseResult) {
    e == AnswerPurchase(t, res) || e == AnswerCheck(t, res)
  }

  ghost predicate WasAnswered(events: seq<Event>, t: nat, res: PurchaseResult) {
    exists i :: 0 <= i < |events| && Answers(events[i], t, res)
  }

  /** A held answer was given by the provider, or says that nothing is known. */
  ghost predicate HeldWereAnswered(c: Cell, events: seq<Event>) {
    forall t :: t in c.tasks && c.tasks[t].Holding? && !LeavesOpen(c.tasks[t].result) && !LacksBalance(c.tasks[t].result) ==>
      WasAnswered(events, t, c.tasks[t].result)
  }

  lemma NewHoldings(cfg: Settings, c: Cell, e: Event, t: nat)
    requires t in Step(cfg, c, e).tasks && Step(cfg, c, e).tasks[t].Holding?
    ensures
      var task := Step(cfg, c, e).tasks[t];
      || (t in c.tasks && c.tasks[t] == task)
      || Answers(e, t, task.result)
      || exists code :: task.result == UncertainResult(code)
  {
    hide Execute, ApplyResult, ApproveBalanceRetry, FinishRefund, BeginRefund, BeginReconciliation, BeginDelivery;
    hide BeginTestConfirmation, EndTestConfirmation, InitiateYoo, IsDefiniteFailure, IsQueued, RefundMatches, DeliveryRunning;
  }

  lemma StepKeepsAnswered(cfg: Settings, c: Cell, events: seq<Event>, e: Event)
    requires HeldWereAnswered(c, events)
    ensures HeldWereAnswered(Step(cfg, c, e), events + [e])
  {
    var after := Step(cfg, c, e);
    hide Step, Pends, LeavesOpen, LacksBalance;
    forall t | && t in after.tasks && after.tasks[t].Holding? && !LeavesOpen(after.tasks[t].result)
               && !LacksBalance(after.tasks[t].result)
      ensures WasAnswered(events + [e], t, after.tasks[t].result)
    {
      NewHoldings(cfg, c, e, t);
      assert (events + [e])[|events|] == e;
      UncertainLeavesOpen();
      if t in c.tasks && c.tasks[t] == after.tasks[t] {
        var i :| 0 <= i < |events| && Answers(events[i], t, c.tasks[t].result);
        assert (events + [e])[i] == events[i];
      }
    }
  }

  lemma UncertainLeavesOpen()
    ensures forall code :: LeavesOpen(UncertainResult(code)) || LacksBalance(UncertainResult(code))
  {
  }

  lemma {:induction false} RunKeepsAnswered(cfg: Settings, c: Cell, events: seq<Event>)
    requires c.tasks == map[]
    ensures HeldWereAnswered(Run(cfg, c, events), events)
  {
    if events != [] {
      var earlier := events[..|events| - 1];
      RunKeepsAnswered(cfg, c, earlier);
      StepKeepsAnswered(cfg, Run(cfg, c, earlier), earlier, events[|events| - 1]);
      assert earlier + [events[|events| - 1]] == events;
      hide Step, HeldWereAnswered;
    }
  }

  /** A status that the order did not have at first was entered by one of the events. */
  ghost predicate EnteredAt(cfg: Settings, c: Cell, events: seq<Event>, i: nat, status: OrderStatus) {
    i < |events| && LeadsTo(cfg, Run(cfg, c, events[..i]), events[i], status)
    && Run(cfg, c, events[..i + 1]).rec.order.status == status
  }

  lemma EntriesStay(cfg: Settings, c: Cell, events: seq<Event>, e: Event, i: nat, status: OrderStatus)
    requires EnteredAt(cfg, c, events, i, status)
    ensures EnteredAt(cfg, c, events + [e], i, status)
  {
    assert (events + [e])[..i] == events[..i] && (events + [e])[..i + 1] == events[..i + 1] && (events + [e])[i] == events[i];
    hide Run, LeadsTo;
  }

  lemma RunGrows(cfg: Settings, c: Cell, events: seq<Event>, e: Event)
    ensures Run(cfg, c, events + [e]) == Step(cfg, Run(cfg, c, events), e)
  {
    assert (events + [e])[..|events|] == events;
    hide Step;
  }

  lemma LastIsEntry(cfg: Settings, c: Cell, events: seq<Event>, e: Event, status: OrderStatus)
    requires LeadsTo(cfg, Run(cfg, c, events), e, status) && Run(cfg, c, events + [e]).rec.order.status == status
    ensures EnteredAt(cfg, c, events + [e], |events|, status)
  {
    assert (events + [e])[..|events|] == events && (events + [e])[..|events| + 1] == events + [e];
    hide Run, LeadsTo;
  }

  lemma LastEnters(cfg: Settings, c: Cell, events: seq<Event>, e: Event, status: OrderStatus)
    requires Sound(cfg, c.rec) && Run(cfg, c, events).rec.order.status != status
    requires Run(cfg, c, events + [e]).rec.order.status == status
    ensures EnteredAt(cfg, c, events + [e], |events|, status)
  {
    RunKeeps(cfg, c, events);
    RunGrows(cfg, c, events, e);
    var before := Run(cfg, c, events);
    hide Run, Step, LeadsTo, WellFormed, Chronicle, Persists, EnteredAt, Objection;
    StepEnters(cfg, before, e, status);
    LastIsEntry(cfg, c, events, e, status);
  }

  lemma {:induction false} StatusWasEntered(cfg: Settings, c: Cell, events: seq<Event>, status: OrderStatus)
    requires Sound(cfg, c.rec) && c.rec.order.status != status && Run(cfg, c, events).rec.order.status == status
    ensures exists i: nat :: EnteredAt(cfg, c, events, i, status)
  {
    if events != [] {
      var earlier, e := events[..|events| - 1], events[|events| - 1];
      assert events == earlier + [e];
      hide Run, EnteredAt, Sound;
      if Run(cfg, c, earlier).rec.order.status == status {
        StatusWasEntered(cfg, c, earlier, status);
        var i: nat :| EnteredAt(cfg, c, earlier, i, status);
        EntriesStay(cfg, c, earlier, e, i, status);
      } else {
        LastEnters(cfg, c, earlier, e, status);
      }
    }
  }

  /** The event at `i` applies an answer of the provider that names the transaction. */
  ghost predicate DeliveryToldAt(events: seq<Event>, i: nat, res: PurchaseResult) {
    && i < |events| && events[i].Apply? && !events[i].clash && Delivers(res)
    && WasAnswered(events[..i], events[i].task, res)
  }

  lemma EntryWasTold(cfg: Settings, c: Cell, events: seq<Event>, i: nat)
    requires Sound(cfg, c.rec) && c.tasks == map[] && EnteredAt(cfg, c, events, i, Completed)
    ensures exists res ::
              && DeliveryToldAt(events, i, res)
              && var after := Run(cfg, c, events[..i + 1]).rec;
                 after.attempt.Some? && after.attempt.value.txId == res.txId && after.order.telegramTx == res.txId
  {
    var before := Run(cfg, c, events[..i]);
    RunKeeps(cfg, c, events[..i]);
    RunKeepsAnswered(cfg, c, events[..i]);
    assert events[..i + 1][..i] == events[..i] && events[..i + 1][i] == events[i];
    assert Run(cfg, c, events[..i + 1]) == Step(cfg, before, events[i]);
    var res := AnswerIn(before, events[i]);
    hide Run, Pends, LacksBalance, WellFormed, Chronicle;
    assert Delivers(res) && !LeavesOpen(res) && !LacksBalance(res) by { DeliversIsClear(res); }
    CommittedAsLeft(cfg, before, events[i]);
    DeliveryIsRecorded(cfg, before.rec, res, events[i].stale);
    hide Step, ApplyResult;
    assert DeliveryToldAt(events, i, res);
  }

  lemma DeliversIsClear(res: PurchaseResult)
    requires Delivers(res)
    ensures !LeavesOpen(res) && !LacksBalance(res)
  {
  }

  /**
   An order is completed only if the provider answered that it sent the Stars, and in which transaction; that answer was
   applied while no other order held the transaction, and both rows name it.
   */
  lemma CompletedMeansDelivered(cfg: Settings, info: OrderInfo, testPaymentId: string, events: seq<Event>)
    requires ValidRequest(cfg, info)
    ensures
      var r := Reach(cfg, info, testPaymentId, events).rec;
      r.order.status.Completed? ==>
        exists i: nat, res ::
          && DeliveryToldAt(events, i, res)
          && r.attempt.Some? && r.attempt.value.txId == res.txId && r.order.telegramTx == res.txId
  {
    var start := Begin(cfg, info, testPaymentId);
    var r := Run(cfg, start, events).rec;
    if r.order.status.Completed? {
      BeginIsSound(cfg, info, testPaymentId);
      BeginIsOpen(cfg, info, testPaymentId);
      hide Begin, Run, LeadsTo, Sound, DeliveryToldAt;
      StatusWasEntered(cfg, start, events, Completed);
      var i: nat :| EnteredAt(cfg, start, events, i, Completed);
      EntryWasTold(cfg, start, events, i);
      CompletedStays(cfg, start, events, i + 1);
    }
  }

  lemma CompletedStays(cfg: Settings, c: Cell, events: seq<Event>, i: nat)
    requires Sound(cfg, c.rec) && i <= |events| && Run(cfg, c, events[..i]).rec.order.status.Completed?
    ensures
      var before, after := Run(cfg, c, events[..i]).rec, Run(cfg, c, events).rec;
      after.attempt == before.attempt && (after.attempt.Some? ==> after.order.telegramTx == after.attempt.value.txId)
  {
    assert events[..i] + events[i..] == events;
    RunSplits(cfg, c, events[..i], events[i..]);
    RunKeeps(cfg, c, events[..i]);
    RunKeeps(cfg, Run(cfg, c, events[..i]), events[i..]);
    hide Run, Chronicle, WellFormed;
    if Run(cfg, c, events).rec.attempt.Some? { CompletedRepeats(cfg, Run(cfg, c, events).rec); }
  }

  lemma BeginIsOpen(cfg: Settings, info: OrderInfo, testPaymentId: string)
    ensures
      var c := Begin(cfg, info, testPaymentId);
      c.tasks == map[] && (c.rec.order.status.Created? || c.rec.order.status.WaitingForPayment?)
  {
    hide StatusNotes;
  }

  lemma CompletedRepeats(cfg: Settings, r: Rec)
    requires WellFormed(cfg, r) && r.attempt.Some?
    ensures r.order.telegramTx == r.attempt.value.txId
  {
  }
}
