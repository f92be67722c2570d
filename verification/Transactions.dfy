/** The committed effect of each database transaction of the payment protocol. */
module Transactions {
  import opened Models
  import opened Sums
  import opened Fees
  import opened Ledger
  import opened Schema

  /** PaymentStateMachine.transition, applied in turn until one is refused. */
  function Walk(from: PaymentStatus, path: seq<PaymentStatus>): Result<PaymentStatus>
    decreases |path|
  {
    if path == [] then Ok(from)
    else if from.CanTransitionTo(path[0]) then Walk(path[0], path[1..])
    else Err(InvalidStateTransition(from, path[0]))
  }

  /** The capture pair, then the fee pair when the fee on `base` is positive. */
  function PostCapture(cfg: Config, rows: seq<Entry>, p: Payment, base: int, capture: Stamp, fee: Stamp)
    : Result<seq<Entry>>
  {
    var posted :- WriteDoubleEntry(cfg, rows, |rows|, capture, CapturePosting(p));
    if Fee(cfg.rate, base) > 0
    then WriteDoubleEntry(cfg, posted, |rows|, fee, FeePosting(p, Fee(cfg.rate, base)))
    else Ok(posted)
  }

  function PublishBoth(t: Tables, kind: EventType, id: Id): Tables {
    Publish(Publish(t, PaymentEvent(kind, id, PaymentsTopic)), PaymentEvent(kind, id, WebhooksTopic))
  }

  // ---------- create_payment ----------

  function FailPayment(t: Tables, id: Id): Tables {
    Publish(UpdatePaymentStatus(t, id, Failed), PaymentEvent(PaymentFailed, id, PaymentsTopic))
  }

  function ChargePath(mode: CaptureMethod): seq<PaymentStatus> {
    if mode == Automatic then [Pending, Authorized, Captured] else [Pending, Authorized]
  }

  /** The row create_payment writes after an approved charge. */
  function ChargedRow(locked: Payment, request: Payment, status: PaymentStatus): Payment {
    if request.captureMethod == Automatic
    then locked.(status := status, capturedAmount := Some(request.amount))
    else locked.(status := status)
  }

  /** Writes the row, posts the capture if it is one, announces it on both topics, and commits. */
  function CommitCharge(cfg: Config, t: Tables, row: Payment, base: int, capture: Stamp, fee: Stamp): Result<Tables> {
    var updated := UpdatePaymentAfterCharge(t, row);
    if row.status == Captured then
      var posted :- PostCapture(cfg, t.ledger, row, base, capture, fee);
      var rows :- CheckReferences(cfg, posted, |t.ledger|);
      Ok(PublishBoth(updated.(ledger := rows), PaymentCaptured, row.id))
    else
      Ok(PublishBoth(updated, PaymentAuthorized, row.id))
  }

  function FinishCharge(cfg: Config, t: Tables, request: Payment, capture: Stamp, fee: Stamp)
    : Result<(Tables, Payment)>
  {
    var locked :- LockPayment(t, request.id, request.merchant);
    var status :- Walk(locked.status, ChargePath(request.captureMethod));
    var row := ChargedRow(locked, request, status);
    var done :- CommitCharge(cfg, t, row, row.amount, capture, fee);
    Ok((done, row))
  }

  // ---------- capture_payment, create_refund, cancel_payment, create_dispute ----------

  function CapturePayment(
    cfg: Config, t: Tables, id: Id, merchant: Id, amount: Option<int>, capture: Stamp, fee: Stamp)
    : Result<(Tables, Payment)>
  {
    var locked :- LockPayment(t, id, merchant);
    var status :- Walk(locked.status, [Captured]);
    var row := locked.(status := status, capturedAmount := Some(amount.GetOr(locked.amount)));
    var done :- CommitCharge(cfg, t, row, row.Charged(), capture, fee);
    Ok((done, row))
  }

  datatype RefundRequest = RefundRequest(
    id: Id, payment: Id, merchant: Id, amount: Option<int>, key: Option<string>)

  function NewRefund(request: RefundRequest, p: Payment): Refund {
    Refund(request.id, request.payment, request.merchant, request.amount.GetOr(p.RefundableAmount()),
           p.currency, RefundPending, request.key)
  }

  /** Refund row, counter, ledger pair and event, then the commit. */
  function CommitRefund(cfg: Config, t: Tables, refund: Refund, stamp: Stamp): Result<Tables> {
    var inserted :- InsertRefund(t, refund);
    var counted :- IncrementRefunded(inserted, refund.payment, refund.amount);
    var posted :- WriteDoubleEntry(cfg, t.ledger, |t.ledger|, stamp,
                    RefundPosting(refund.payment, refund.merchant, refund.currency, refund.amount));
    var rows :- CheckReferences(cfg, posted, |t.ledger|);
    Ok(Publish(counted.(ledger := rows), RefundEvent(RefundPendingEvent, refund, PaymentsTopic)))
  }

  function CreateRefund(cfg: Config, t: Tables, request: RefundRequest, stamp: Stamp): Result<(Tables, Refund)> {
    var locked :- LockPayment(t, request.payment, request.merchant);
    if locked.status != Captured && locked.status != Settled then Err(NotRefundable(locked.status)) else
      var refund := NewRefund(request, locked);
      if !locked.CanRefund(refund.amount) then
        Err(AmountExceedsLimit(refund.amount, locked.RefundableAmount()))
      else
        var done :- CommitRefund(cfg, t, refund, stamp);
        Ok((done, refund))
  }

  function CancelPayment(t: Tables, id: Id, merchant: Id): Result<(Tables, Payment)> {
    var locked :- LockPayment(t, id, merchant);
    var status :- Walk(locked.status, [Cancelled]);
    Ok((Publish(UpdatePaymentStatus(t, id, status), PaymentEvent(PaymentCancelled, id, PaymentsTopic)),
        locked.(status := status)))
  }

  function CreateDispute(t: Tables, d: Dispute): Result<Tables> {
    var locked :- LockPayment(t, d.payment, d.merchant);
    var inserted :- InsertDispute(t, d);
    Ok(Publish(UpdatePaymentStatus(inserted, d.payment, Disputed),
               Event(DisputeCreated, d.id, Some(d.payment), PaymentsTopic)))
  }

  // ---------- settle_merchant ----------

  function ChargedAmount(): Payment -> int {
    (p: Payment) => p.Charged()
  }

  function Rows(t: Tables, ids: set<Id>): map<Id, Payment>
    requires ids <= t.payments.Keys
  {
    map id | id in ids :: t.payments[id]
  }

  ghost function NewSettlement(cfg: Config, t: Tables, id: Id, merchant: Id, locked: set<Id>): Settlement {
    var members := SelectUnsettled(t, merchant, locked);
    var total := SumMap(Rows(t, members), ChargedAmount());
    var fee := Fee(cfg.rate, total);
    Settlement(id, merchant, members, total, fee, total - fee)
  }

  /** One settlement transaction; an empty selection commits nothing and pays 0. */
  ghost function SettleMerchant(cfg: Config, t: Tables, id: Id, merchant: Id, locked: set<Id>, now: int)
    : Result<(Tables, int)>
  {
    var s := NewSettlement(cfg, t, id, merchant, locked);
    if s.members == {} then Ok((t, 0)) else
      var inserted :- InsertSettlement(t, s);
      Ok((Publish(CreditBalance(MarkSettled(inserted, s.members, now), merchant, s.net, s.total),
                  Event(SettlementCompleted, id, None, WebhooksTopic)),
          s.net))
  }
}
