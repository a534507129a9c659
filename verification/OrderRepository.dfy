/** The repository, writing the rows of one locked order in place. */
module OrderRepository {
  import opened Domain
  import opened Ledger

  /** A write that raises may leave anything behind: the transaction around it rolls back. */
  ghost predicate Wrote(spec: Result<Rec>, out: Result<()>, after: Rec) {
    if spec.Ok? then out == Ok(()) && after == spec.value else out == Raise(spec.error)
  }

  class Repository {
    var order: Order
    var payment: Option<Payment>
    var attempt: Option<Attempt>
    var log: seq<Edge>
    var notes: seq<Note>

    function View(): Rec
      reads this
    {
      Rec(order, payment, attempt, log, notes)
    }

    constructor (r: Rec)
      ensures View() == r
    {
      order, payment, attempt, log, notes := r.order, r.payment, r.attempt, r.log, r.notes;
    }

    /** Undoes everything since `saved` was taken, as a rollback or the end of a failed savepoint does. */
    method Restore(saved: Rec)
      modifies this
      ensures View() == saved
    {
      order, payment, attempt, log, notes := saved.order, saved.payment, saved.attempt, saved.log, saved.notes;
    }

    method EnqueueStatusNotifications()
      modifies `notes
      ensures notes == old(notes) + StatusNotes(order.status, order.info.stars)
    {
      if AnnouncedToUser(order.status) {
        notes := notes + [Note(order.status, User, false)];
      }
      if AnnouncedToAdmins(order.status, order.info.stars) {
        notes := notes + [Note(order.status, Admin, false)];
      }
    }

    method EnqueueUserNotification()
      modifies `notes
      ensures View() == Ledger.Resend(old(View()))
    {
      notes := notes + [Note(order.status, User, true)];
    }

    method Transition(target: OrderStatus, code: Option<Code>) returns (out: Result<()>)
      modifies `order, `log, `notes
      ensures Wrote(Ledger.Transition(old(View()), target, code), out, View())
      ensures out.Raise? ==> View() == old(View())
    {
      if order.status == target {
        return Ok(());
      }
      if !Allowed(order.status, target) {
        return Raise(InvalidTransition);
      }
      var previous := order.status;
      order := order.(status := target);
      if code.Some? {
        order := order.(errorCode := code);
      }
      log := log + [Edge(previous, target)];
      EnqueueStatusNotifications();
      return Ok(());
    }

    method SetPaymentStatus(status: PaymentStatus)
      modifies `order, `payment
      ensures View() == Ledger.SetPaymentStatus(old(View()), status)
    {
      order := order.(paymentStatus := Some(status));
      if payment.Some? {
        payment := Some(payment.value.(status := status));
      }
    }

    method EnsurePayment(fallback: Payment)
      modifies `payment
      ensures View() == Ledger.EnsurePayment(old(View()), fallback)
    {
      if payment.None? {
        payment := Some(fallback);
      }
    }

    method SetupTestPayment(paymentId: string) returns (out: Result<()>)
      modifies this
      ensures Wrote(Ledger.SetupTestPayment(old(View()), paymentId), out, View())
    {
      if !order.status.Created? {
        return Ok(());
      }
      order := order.(paymentId := Some(paymentId), paymentStatus := Some(PayCreated), payType := Some(TestPay));
      var terms := PaymentTerms(TestProvider, None, order.info.rubAmount, "RUB", "test", None);
      EnsurePayment(NewPayment(terms, ProviderReference(paymentId)));
      out := Transition(WaitingForPayment, None);
    }

    method SetupTonPayment(amount: int, comment: string, destination: string, expiresAt: int) returns (out: Result<()>)
      modifies this
      ensures Wrote(Ledger.SetupTonPayment(old(View()), amount, comment, destination, expiresAt), out, View())
    {
      if !order.status.Created? {
        return Ok(());
      }
      order := order.(invoice := Some(Invoice(amount, destination)), paymentId := Some(comment));
      order := order.(paymentStatus := Some(PayCreated), payType := Some(TonPay), expiresAt := Some(expiresAt));
      var terms := PaymentTerms(Toncenter, None, amount, "TON", "TON", Some(destination));
      EnsurePayment(NewPayment(terms, ProviderReference(comment)));
      out := Transition(WaitingForPayment, None);
    }

    method SetupYooPayment(key: Uuid, expiresAt: int) returns (out: Result<()>)
      modifies this
      ensures Wrote(Ledger.SetupYooPayment(old(View()), key, expiresAt), out, View())
    {
      if !order.status.Created? && !order.status.WaitingForPayment? {
        return Raise(Rejected);
      }
      order := order.(paymentStatus := Some(PayCreated), payType := Some(YooPay), expiresAt := Some(expiresAt));
      var terms := PaymentTerms(YooKassa, Some(key), order.info.rubAmount, "RUB", "yookassa", None);
      EnsurePayment(NewPayment(terms, PendingReference));
      if order.status.Created? {
        var _ :- Transition(WaitingForPayment, None);
      }
      return Ok(());
    }

    /** The savepoint is undone when the unique key catches a hash that the query before it missed. */
    method RecordDetection(hash: string, amount: int, clash: bool, stale: bool) returns (attached: Result<bool>)
      modifies `order, `payment
      ensures
        var spec := Ledger.RecordDetection(old(View()), hash, amount, clash, stale);
        if spec.Raise? then attached == Raise(spec.error) && View() == old(View())
        else if spec.value.None? then attached == Ok(false) && View() == old(View())
        else attached == Ok(true) && View() == spec.value.value
    {
      if clash && !stale {
        return Ok(false);
      }
      if payment.None? {
        return Raise(MissingRow);
      }
      var savedOrder, savedPayment := order, payment;
      payment := Some(payment.value.(txHash := Some(hash), received := Some(amount), status := PayDetected));
      order := order.(tonHash := Some(hash), paymentStatus := Some(PayDetected));
      if clash {
        order, payment := savedOrder, savedPayment;
        return Ok(false);
      }
      return Ok(true);
    }

    method CreateAttempt() returns (isNew: bool)
      modifies `attempt
      ensures (View(), isNew) == Ledger.CreateAttempt(old(View()))
      ensures attempt.Some?
    {
      isNew := attempt.None?;
      if isNew {
        attempt := Some(Attempt(Submitting, None, None, None));
      }
    }

    method MarkQueued(requestId: string, clash: bool) returns (out: Result<()>)
      requires attempt.Some?
      modifies this
      ensures Wrote(Ledger.MarkQueued(old(View()), old(attempt.value), requestId, clash), out, View())
    {
      attempt := Some(attempt.value.(requestId := Some(requestId), status := Queued));
      order := order.(requestId := Some(requestId));
      if clash {
        return Raise(IntegrityError);
      }
      out := Transition(StarsSending, None);
    }

    method MarkProcessing()
      requires attempt.Some?
      modifies `attempt
      ensures attempt == Some(old(attempt.value).(status := Processing))
    {
      attempt := Some(attempt.value.(status := Processing));
    }

    method MarkFailed(code: Code, uncertain: bool) returns (out: Result<()>)
      requires attempt.Some?
      modifies this
      ensures Wrote(Ledger.MarkFailed(old(View()), old(attempt.value), code, uncertain), out, View())
    {
      attempt := Some(attempt.value.(status := if uncertain then Uncertain else AttemptFailed, errorCode := Some(code)));
      out := Transition(if uncertain then ManualReview else RefundRequired, Some(code));
    }

    method MarkWaitingForBalance(code: Code) returns (out: Result<()>)
      requires attempt.Some?
      modifies this
      ensures Wrote(Ledger.MarkWaitingForBalance(old(View()), old(attempt.value), code), out, View())
    {
      attempt := Some(attempt.value.(status := AttemptFailed, errorCode := Some(code)));
      out := Transition(WaitingForMerchantBalance, Some(code));
    }

    /** Completes the order in a savepoint, which also takes back the audit event and the notices. */
    method MarkSucceeded(txId: string, clash: bool, stale: bool) returns (out: Result<()>)
      requires attempt.Some?
      modifies this
      ensures Wrote(Ledger.MarkSucceeded(old(View()), old(attempt.value), txId, clash, stale), out, View())
    {
      if clash && !stale {
        out := MarkFailed(DuplicateProviderTransaction, true);
        return;
      }
      var saved := View();
      attempt := Some(attempt.value.(status := AttemptSucceeded, txId := Some(txId)));
      order := order.(telegramTx := Some(txId));
      var _ :- Transition(Completed, None);
      if clash {
        Restore(saved);
        out := MarkFailed(DuplicateProviderTransaction, true);
        return;
      }
      return Ok(());
    }
  }
}
