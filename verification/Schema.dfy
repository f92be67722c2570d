/** The shared tables as values, and the meaning of each SQL statement on them (crates/payment-service/src/db.rs). */
module Schema {
  import opened Models
  import opened Ledger

  datatype RefundStatus = RefundPending | RefundSucceeded | RefundFailed

  datatype Refund = Refund(
    id: Id, payment: Id, merchant: Id, amount: int, currency: Currency, status: RefundStatus, key: Option<string>)

  datatype Dispute = Dispute(id: Id, payment: Id, merchant: Id, amount: int)

  /** A settlement with the payment ids and the totals of its transaction. */
  datatype Settlement = Settlement(id: Id, merchant: Id, members: set<Id>, total: int, fee: int, net: int)

  datatype MerchantBalance = MerchantBalance(available: int, pending: int)

  datatype EventType =
    | PaymentCreated
    | PaymentAuthorized
    | PaymentCaptured
    | PaymentFailed
    | PaymentCancelled
    | RefundPendingEvent
    | RefundSucceededEvent
    | DisputeCreated
    | SettlementCompleted

  datatype Topic = PaymentsTopic | WebhooksTopic

  /** An outbox row; `payment` is the payment_id in its payload, if it has one. */
  datatype Event = Event(kind: EventType, aggregate: Id, payment: Option<Id>, topic: Topic)

  datatype Tables = Tables(
    payments: map<Id, Payment>,
    refunds: seq<Refund>,
    ledger: seq<Entry>,
    settlements: seq<Settlement>,
    balances: map<Id, MerchantBalance>,
    disputes: seq<Dispute>,
    outbox: seq<Event>)

  function PaymentEvent(kind: EventType, id: Id, topic: Topic): Event {
    Event(kind, id, Some(id), topic)
  }

  function RefundEvent(kind: EventType, refund: Refund, topic: Topic): Event {
    Event(kind, refund.id, Some(refund.payment), topic)
  }

  function Publish(t: Tables, e: Event): Tables {
    t.(outbox := t.outbox + [e])
  }

  // ---------- payments ----------

  datatype Insertion = Inserted(tables: Tables) | Existing(id: Id) | Rejected

  predicate SameKey(row: Payment, p: Payment) {
    p.key.Some? && row.merchant == p.merchant && row.key == p.key
  }

  /** The unique index over (merchant_id, idempotency_key). */
  ghost predicate UniqueKeys(payments: map<Id, Payment>) {
    forall i, j :: i in payments && j in payments && SameKey(payments[i], payments[j]) ==> i == j
  }

  /** INSERT ... ON CONFLICT (merchant_id, idempotency_key) DO NOTHING, then the id of the row that has the key. */
  ghost function InsertPaymentIdempotent(t: Tables, p: Payment): Insertion {
    if p.amount <= 0 then Rejected
    else if exists id :: id in t.payments && SameKey(t.payments[id], p) then
      var id :| id in t.payments && SameKey(t.payments[id], p);
      Existing(id)
    else if p.id in t.payments then Rejected
    else Inserted(t.(payments := t.payments[p.id := p.(refundedAmount := 0, settledAt := None)]))
  }

  function LockPayment(t: Tables, id: Id, merchant: Id): Result<Payment> {
    if id in t.payments && t.payments[id].merchant == merchant then Ok(t.payments[id]) else Err(NotFound)
  }

  /** UPDATE payments SET status = ...: no guard on the old status, no row if the id is unknown. */
  function UpdatePaymentStatus(t: Tables, id: Id, status: PaymentStatus): Tables {
    if id in t.payments then t.(payments := t.payments[id := t.payments[id].(status := status)]) else t
  }

  function UpdatePaymentAfterCharge(t: Tables, p: Payment): Tables {
    if p.id !in t.payments then t else
      var row := t.payments[p.id].(status := p.status, capturedAmount := p.capturedAmount);
      t.(payments := t.payments[p.id := row])
  }

  /** UPDATE ... AND refunded_amount + $2 <= COALESCE(captured_amount, amount); no row touched is an error. */
  function IncrementRefunded(t: Tables, id: Id, amount: int): Result<Tables> {
    if id in t.payments && t.payments[id].refundedAmount + amount <= t.payments[id].Charged() then
      var row := t.payments[id].(refundedAmount := t.payments[id].refundedAmount + amount);
      Ok(t.(payments := t.payments[id := row]))
    else Err(AmountExceedsLimit(amount, 0))
  }

  // ---------- refunds and disputes ----------

  predicate RefundKeyTaken(t: Tables, r: Refund) {
    r.key.Some? && exists i :: 0 <= i < |t.refunds| && t.refunds[i].merchant == r.merchant && t.refunds[i].key == r.key
  }

  predicate RefundIdTaken(t: Tables, id: Id) {
    exists i :: 0 <= i < |t.refunds| && t.refunds[i].id == id
  }

  /** INSERT ... ON CONFLICT (merchant_id, idempotency_key) DO NOTHING: a taken key is not an error. */
  function InsertRefund(t: Tables, r: Refund): Result<Tables> {
    if r.amount <= 0 then Err(Database)
    else if RefundKeyTaken(t, r) then Ok(t)
    else if RefundIdTaken(t, r.id) then Err(Database)
    else Ok(t.(refunds := t.refunds + [r]))
  }

  function WithRefundStatus(rows: seq<Refund>, id: Id, status: RefundStatus): seq<Refund> {
    seq(|rows|, i requires 0 <= i < |rows| => if rows[i].id == id then rows[i].(status := status) else rows[i])
  }

  function UpdateRefundStatus(t: Tables, id: Id, status: RefundStatus): Tables {
    t.(refunds := WithRefundStatus(t.refunds, id, status))
  }

  function InsertDispute(t: Tables, d: Dispute): Result<Tables> {
    if d.amount <= 0 || exists i :: 0 <= i < |t.disputes| && t.disputes[i].id == d.id then Err(Database)
    else Ok(t.(disputes := t.disputes + [d]))
  }

  // ---------- settlement ----------

  predicate Unsettled(p: Payment, merchant: Id) {
    p.merchant == merchant && p.status == Captured && p.settledAt.None?
  }

  /** SELECT ... FOR UPDATE SKIP LOCKED: every unsettled payment whose row nobody else holds. */
  function SelectUnsettled(t: Tables, merchant: Id, locked: set<Id>): set<Id> {
    set id | id in t.payments && id !in locked && Unsettled(t.payments[id], merchant)
  }

  function MarkSettled(t: Tables, ids: set<Id>, now: int): Tables {
    t.(payments := map id | id in t.payments ::
         if id in ids then t.payments[id].(status := Settled, settledAt := Some(now)) else t.payments[id])
  }

  function CreditBalance(t: Tables, merchant: Id, net: int, total: int): Tables {
    if merchant !in t.balances then t else
      var b := t.balances[merchant];
      var left := if b.pending - total > 0 then b.pending - total else 0;
      t.(balances := t.balances[merchant := MerchantBalance(b.available + net, left)])
  }

  function InsertSettlement(t: Tables, s: Settlement): Result<Tables> {
    if exists i :: 0 <= i < |t.settlements| && t.settlements[i].id == s.id then Err(Database)
    else Ok(t.(settlements := t.settlements + [s]))
  }
}
