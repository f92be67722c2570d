/** The payment record, its status graph and the refund rule (crates/common/src/models.rs). */
module Models {

  /** A UUID in its textual form. */
  type Id = string

  datatype Option<+T> = None | Some(value: T) {
    function GetOr(default: T): T {
      match this
      case Some(v) => v
      case None => default
    }
  }

  datatype AppError =
    | NotFound
    | InvalidStateTransition(from: PaymentStatus, to: PaymentStatus)
    | NotRefundable(from: PaymentStatus)
    | AmountExceedsLimit(amount: int, max: int)
    | Unauthorized
    | Database

  datatype Result<+T> = Ok(value: T) | Err(error: AppError) {
    predicate IsFailure() {
      Err?
    }

    function PropagateFailure<U>(): Result<U>
      requires Err?
    {
      Err(error)
    }

    function Extract(): T
      requires Ok?
    {
      value
    }
  }

  datatype Currency = INR | USD | EUR | GBP | AED | SGD

  datatype PaymentStatus =
    | Created
    | Pending
    | Authorized
    | Captured
    | Settled
    | Failed
    | Refunded
    | Disputed
    | Cancelled
    | RequiresAction
  {
    function ValidTransitions(): seq<PaymentStatus> {
      match this
      case Created => [Pending, Cancelled]
      case Pending => [Authorized, Failed, RequiresAction]
      case RequiresAction => [Authorized, Failed, Cancelled]
      case Authorized => [Captured, Cancelled]
      case Captured => [Settled, Disputed]
      case Settled => [Disputed]
      case Failed | Cancelled | Refunded | Disputed => []
    }

    predicate CanTransitionTo(next: PaymentStatus) {
      next in ValidTransitions()
    }
  }

  datatype CaptureMethod = Automatic | Manual

  /** A row of the payments table; columns that no rule reads are left out. */
  datatype Payment = Payment(
    id: Id,
    merchant: Id,
    amount: int,
    currency: Currency,
    status: PaymentStatus,
    captureMethod: CaptureMethod,
    capturedAmount: Option<int>,
    refundedAmount: int,
    key: Option<string>,
    settledAt: Option<int>)
  {
    /** COALESCE(captured_amount, amount). */
    function Charged(): int {
      capturedAmount.GetOr(amount)
    }

    function RefundableAmount(): int {
      Charged() - refundedAmount
    }

    predicate CanRefund(refund: int) {
      && (status == Captured || status == Settled)
      && refund > 0
      && refund <= RefundableAmount()
    }
  }
}
