/** Order, payment and purchase vocabulary shared by every process of the shop. */
module Domain {

  datatype Option<+T> = None | Some(value: T)

  datatype Error = InvalidTransition | NotFound | Rejected | IntegrityError | MissingRow

  /** A raised exception is a `Raise`; `:-` propagates it the way a Python block does. */
  datatype Result<+T> = Ok(value: T) | Raise(error: Error) {
    predicate IsFailure() {
      Raise?
    }

    function PropagateFailure<U>(): Result<U>
      requires Raise?
    {
      Raise(error)
    }

    function Extract(): T
      requires Ok?
    {
      value
    }
  }

  /** Python's truth of an optional string: neither missing nor empty. */
  predicate Truthy(text: Option<string>) {
    text.Some? && text.value != ""
  }

  datatype OrderKind = SelfOrder | GiftOrder

  datatype OrderStatus =
    | Created
    | WaitingForPayment
    | PaymentDetected
    | PaymentConfirming
    | Paid
    | PurchaseProcessing
    | StarsSending
    | Completed
    | PaymentExpired
    | PaymentFailed
    | PurchaseFailed
    | RefundRequired
    | Refunded
    | Cancelled
    | ManualReview
    | WaitingForMerchantBalance

  datatype PayType = TestPay | TonPay | YooPay

  datatype PaymentStatus =
    | PayCreated
    | PayPending
    | PayWaitingForCapture
    | PayDetected
    | PayConfirming
    | PaySucceeded
    | PayFailed
    | PayCanceled
    | PayExpired
    | PayManualReview

  datatype AttemptStatus =
    | AttemptCreated
    | Submitting
    | Queued
    | Processing
    | AttemptSucceeded
    | AttemptFailed
    | Uncertain

  /** The edges of ALLOWED_ORDER_TRANSITIONS; a status that is not a key has none. */
  predicate Allowed(current: OrderStatus, target: OrderStatus) {
    match current
    case Created =>
      target.WaitingForPayment? || target.Cancelled? || target.ManualReview?
    case WaitingForPayment =>
      || target.PaymentDetected? || target.PaymentExpired? || target.PaymentFailed?
      || target.Cancelled? || target.ManualReview?
    case PaymentDetected =>
      target.PaymentConfirming? || target.ManualReview?
    case PaymentConfirming =>
      target.Paid? || target.PaymentFailed? || target.ManualReview?
    case Paid =>
      target.PurchaseProcessing? || target.RefundRequired? || target.ManualReview?
    case PurchaseProcessing =>
      || target.StarsSending? || target.PurchaseFailed? || target.RefundRequired?
      || target.ManualReview? || target.WaitingForMerchantBalance?
    case StarsSending =>
      || target.Completed? || target.PurchaseFailed? || target.RefundRequired?
      || target.ManualReview? || target.WaitingForMerchantBalance?
    case PurchaseFailed =>
      target.RefundRequired? || target.ManualReview?
    case RefundRequired =>
      target.Refunded? || target.ManualReview?
    case PaymentExpired =>
      target.ManualReview?
    case Cancelled =>
      target.ManualReview?
    case ManualReview =>
      || target.Paid? || target.PurchaseProcessing? || target.StarsSending? || target.Completed?
      || target.RefundRequired? || target.Refunded? || target.Cancelled?
    case WaitingForMerchantBalance =>
      target.PurchaseProcessing? || target.ManualReview? || target.RefundRequired?
    case Completed => false
    case PaymentFailed => false
    case Refunded => false
  }

  /** Statuses whose entry is announced to the buyer. */
  predicate AnnouncedToUser(status: OrderStatus) {
    || status.Paid? || status.Completed? || status.PaymentExpired? || status.PaymentFailed?
    || status.RefundRequired? || status.Refunded? || status.Cancelled? || status.ManualReview?
    || status.WaitingForMerchantBalance?
  }

  /** Statuses whose entry is announced to administrators; large completions are announced too. */
  predicate AnnouncedToAdmins(status: OrderStatus, stars: int) {
    || status.ManualReview? || status.RefundRequired? || status.WaitingForMerchantBalance?
    || status.Paid?
    || (status.Completed? && stars >= 1000)
  }

  /** Error codes the service writes itself; a provider's own code is carried as text. */
  datatype Code =
    | InsufficientBalance
    | InsufficientWalletBalance
    | BalanceRetryApproved
    | PurchaseFailedCode
    | PurchaseReferenceMissing
    | DuplicateProviderTransaction
    | PurchaseAttemptMissing
    | ProviderReconciliationUnavailable
    | PurchaseResponseNotPersisted
    | PurchaseProviderResponseUncertain
    | ReconciliationDataMissing
    | AdminManualReview
    | StarsAmountInvalid
    | RecipientValidationFailed
    | RecipientUsernameMissing
    | PaymentRecordMissing
    | PaymentNotConfirmed
    | PaymentTransactionMismatch
    | PaymentAmountMismatch
    | PaymentRouteMismatch
    | DuplicatePaymentTransaction
    | MultiplePaymentTransactions
    | PaymentUnderpaid
    | PaymentOverpaid
    | LatePayment
    | PaymentConfirmationLost
    | TestPaymentFailed
    | YooKassaPaymentCanceled
    | YooKassaLatePayment
    | ProviderCode(text: string)

  /** The codes the final purchase gate uses for a payment that does not add up. */
  predicate IsPaymentCode(code: Code) {
    || code.PaymentRecordMissing? || code.PaymentNotConfirmed? || code.PaymentTransactionMismatch?
    || code.PaymentAmountMismatch? || code.PaymentRouteMismatch?
  }

  predicate IsBalanceCode(code: Code) {
    code.InsufficientBalance? || code.InsufficientWalletBalance?
  }
}
