/** The payment service's transactions, statement by statement (crates/payment-service/src/orchestrator.rs
    and dispute.rs). Each method runs from one BEGIN to its COMMIT or rollback. */
module Orchestrator {
  import opened Models
  import opened Fees
  import opened Ledger
  import opened Schema
  import opened Transactions
  import opened Protocol
  import opened StateMachine
  import opened Db
  import opened LedgerWriter

  class PaymentOrchestrator {
    const cfg: Config
    const db: Store

    constructor (cfg: Config, db: Store)
      ensures this.cfg == cfg && this.db == db
    {
      this.cfg := cfg;
      this.db := db;
    }

    // ---------- create_payment ----------

    /** Inserts the payment, or returns the one that already has the key; the flag tells which. */
    method BeginCreate(request: Payment) returns (r: Result<(Payment, bool)>)
      requires UniqueKeys(db.tables.payments)
      modifies db
      ensures match Schema.InsertPaymentIdempotent(old(db.tables), NewPayment(request))
              case Inserted(t) =>
                && r == Ok((NewPayment(request), true))
                && db.tables == Publish(t, PaymentEvent(PaymentCreated, request.id, PaymentsTopic))
              case Existing(id) =>
                && db.tables == old(db.tables)
                && r == Ok((old(db.tables).payments[id], false))
                && SameKey(old(db.tables).payments[id], request)
              case Rejected => r == Err(AppError.Database) && db.tables == old(db.tables)
    {
      var p := request.(status := Created, capturedAmount := None, refundedAmount := 0, settledAt := None);
      var tx := new Transaction.Begin(db, cfg);
      var inserted := Db.InsertPaymentIdempotent(tx, p);
      match inserted
      case Refused => return Err(AppError.Database);
      case SameKeyRow(id) =>
        var committed := tx.Commit(db);
        return Ok((db.tables.payments[id], false));
      case NewRow =>
        InsertOutboxEvent(tx, PaymentEvent(PaymentCreated, p.id, PaymentsTopic));
        var committed := tx.Commit(db);
        return Ok((p, true));
    }

    /** The failure paths: the status is overwritten without looking at it. */
    method FailCreate(id: Id)
      modifies db
      ensures db.tables == FailPayment(old(db.tables), id)
    {
      var tx := new Transaction.Begin(db, cfg);
      Db.UpdatePaymentStatus(tx, id, Failed);
      InsertOutboxEvent(tx, PaymentEvent(PaymentFailed, id, PaymentsTopic));
      var committed := tx.Commit(db);
    }

    /** The success path after an approved charge. */
    method FinishCreate(request: Payment, capture: Stamp, fee: Stamp) returns (r: Result<Payment>)
      modifies db
      ensures match FinishCharge(cfg, old(db.tables), request, capture, fee)
              case Ok(done) => r == Ok(done.1) && db.tables == done.0
              case Err(e) => r == Err(e) && db.tables == old(db.tables)
    {
      var tx := new Transaction.Begin(db, cfg);
      var locked :- LockPaymentForUpdate(tx, request.id, request.merchant);
      var sm := new PaymentStateMachine(locked.status);
      ghost var path := ChargePath(request.captureMethod);
      assert path[1..][1..] == path[2..];
      var _ :- sm.Transition(Pending);
      var authorized :- sm.Transition(Authorized);
      if request.captureMethod == Automatic {
        var captured := sm.Transition(Captured);
        locked := locked.(status := captured.value, capturedAmount := Some(request.amount));
      } else {
        locked := locked.(status := authorized);
      }
      assert Walk(tx.payments[request.id].status, path) == Ok(locked.status);
      var _ :- CommitCharge(tx, locked, locked.amount, capture, fee);
      return Ok(locked);
    }

    /** The tail that a charge and a capture share: the row, the ledger, both events, the commit. */
    method CommitCharge(tx: Transaction, p: Payment, base: int, capture: Stamp, fee: Stamp) returns (r: Result<()>)
      requires tx.cfg == cfg && tx.own == |tx.ledger|
      modifies tx, db
      ensures match Transactions.CommitCharge(cfg, old(tx.View()), p, base, capture, fee)
              case Ok(done) => r == Ok(()) && db.tables == done
              case Err(e) => r == Err(e) && db.tables == old(db.tables)
    {
      Db.UpdatePaymentAfterCharge(tx, p);
      if p.status == Captured {
        var _ :- PostCapture(tx, p, base, capture, fee);
      }
      var kind := if p.status == Captured then PaymentCaptured else PaymentAuthorized;
      InsertOutboxEvent(tx, PaymentEvent(kind, p.id, PaymentsTopic));
      InsertOutboxEvent(tx, PaymentEvent(kind, p.id, WebhooksTopic));
      r := tx.Commit(db);
    }

    /** The capture pair and, when the fee is positive, the fee pair. */
    method PostCapture(tx: Transaction, p: Payment, base: int, capture: Stamp, fee: Stamp) returns (r: Result<()>)
      requires tx.cfg == cfg && tx.own == |tx.ledger|
      modifies tx
      ensures match Transactions.PostCapture(cfg, old(tx.ledger), p, base, capture, fee)
              case Ok(rows) => r == Ok(()) && tx.View() == old(tx.View()).(ledger := rows)
              case Err(e) => r == Err(e)
    {
      var writer := new Writer(tx);
      var _ :- writer.RecordCapture(p, capture);
      var amount := Fee(cfg.rate, base);
      if amount > 0 {
        var _ :- writer.RecordFee(p, amount, fee);
      }
      return Ok(());
    }

    // ---------- capture_payment ----------

    /** The check before the acquirer is asked; it reads without a lock. */
    method BeginCapture(id: Id, merchant: Id) returns (r: Result<Payment>)
      ensures r.Ok? <==> LockPayment(db.tables, id, merchant).Ok? && db.tables.payments[id].status == Authorized
      ensures r.Ok? ==> r.value == db.tables.payments[id]
    {
      if id !in db.tables.payments || db.tables.payments[id].merchant != merchant {
        return Err(NotFound);
      }
      var payment := db.tables.payments[id];
      var sm := new PaymentStateMachine(payment.status);
      var _ :- sm.Transition(Captured);
      return Ok(payment);
    }

    method FinishCapture(id: Id, merchant: Id, amount: Option<int>, capture: Stamp, fee: Stamp)
      returns (r: Result<Payment>)
      requires id in db.tables.payments ==> db.tables.payments[id].id == id
      modifies db
      ensures match CapturePayment(cfg, old(db.tables), id, merchant, amount, capture, fee)
              case Ok(done) => r == Ok(done.1) && db.tables == done.0
              case Err(e) => r == Err(e) && db.tables == old(db.tables)
    {
      var tx := new Transaction.Begin(db, cfg);
      var payment :- LockPaymentForUpdate(tx, id, merchant);
      var sm := new PaymentStateMachine(payment.status);
      var status :- sm.Transition(Captured);
      payment := payment.(status := status, capturedAmount := Some(amount.GetOr(payment.amount)));
      var _ :- CommitCharge(tx, payment, payment.capturedAmount.GetOr(payment.amount), capture, fee);
      return Ok(payment);
    }

    // ---------- create_refund ----------

    method BeginRefund(request: RefundRequest, stamp: Stamp) returns (r: Result<Refund>)
      modifies db
      ensures match CreateRefund(cfg, old(db.tables), request, stamp)
              case Ok(done) => r == Ok(done.1) && db.tables == done.0
              case Err(e) => r == Err(e) && db.tables == old(db.tables)
    {
      var tx := new Transaction.Begin(db, cfg);
      var payment :- LockPaymentForUpdate(tx, request.payment, request.merchant);
      if payment.status != Captured && payment.status != Settled {
        return Err(NotRefundable(payment.status));
      }
      var amount := request.amount.GetOr(payment.RefundableAmount());
      if !payment.CanRefund(amount) {
        return Err(AmountExceedsLimit(amount, payment.RefundableAmount()));
      }
      var refund := Refund(request.id, request.payment, request.merchant, amount, payment.currency,
                           RefundPending, request.key);
      var _ :- CommitRefund(tx, refund, stamp);
      return Ok(refund);
    }

    method CommitRefund(tx: Transaction, refund: Refund, stamp: Stamp) returns (r: Result<()>)
      requires tx.cfg == cfg && tx.own == |tx.ledger|
      modifies tx, db
      ensures match Transactions.CommitRefund(cfg, old(tx.View()), refund, stamp)
              case Ok(done) => r == Ok(()) && db.tables == done
              case Err(e) => r == Err(e) && db.tables == old(db.tables)
    {
      var _ :- Db.InsertRefund(tx, refund);
      var _ :- IncrementRefundedAmount(tx, refund.payment, refund.amount);
      var writer := new Writer(tx);
      var _ :- writer.RecordRefund(refund, stamp);
      InsertOutboxEvent(tx, RefundEvent(RefundPendingEvent, refund, PaymentsTopic));
      r := tx.Commit(db);
    }

    /** Records the acquirer's answer: one UPDATE, in no transaction with the event that follows it. */
    method RecordRefundVerdict(refund: Refund, succeeded: bool)
      modifies db
      ensures db.tables == Schema.UpdateRefundStatus(old(db.tables), refund.id,
                             if succeeded then RefundSucceeded else RefundFailed)
    {
      Db.UpdateRefundStatus(db, refund.id, if succeeded then RefundSucceeded else RefundFailed);
    }

    method AnnounceRefund(refund: Refund)
      modifies db
      ensures db.tables == Publish(old(db.tables), RefundEvent(RefundSucceededEvent, refund, WebhooksTopic))
    {
      var tx := new Transaction.Begin(db, cfg);
      InsertOutboxEvent(tx, RefundEvent(RefundSucceededEvent, refund, WebhooksTopic));
      var committed := tx.Commit(db);
    }

    // ---------- cancel_payment and create_dispute ----------

    method Cancel(id: Id, merchant: Id) returns (r: Result<Payment>)
      requires id in db.tables.payments ==> db.tables.payments[id].id == id
      modifies db
      ensures match CancelPayment(old(db.tables), id, merchant)
              case Ok(done) => r == Ok(done.1) && db.tables == done.0
              case Err(e) => r == Err(e) && db.tables == old(db.tables)
    {
      var tx := new Transaction.Begin(db, cfg);
      var payment :- LockPaymentForUpdate(tx, id, merchant);
      var sm := new PaymentStateMachine(payment.status);
      var status :- sm.Transition(Cancelled);
      payment := payment.(status := status);
      Db.UpdatePaymentStatus(tx, payment.id, Cancelled);
      InsertOutboxEvent(tx, PaymentEvent(PaymentCancelled, payment.id, PaymentsTopic));
      var committed := tx.Commit(db);
      return Ok(payment);
    }

    method OpenDispute(d: Dispute) returns (r: Result<Dispute>)
      modifies db
      ensures match CreateDispute(old(db.tables), d)
              case Ok(t) => r == Ok(d) && db.tables == t
              case Err(e) => r == Err(e) && db.tables == old(db.tables)
    {
      var tx := new Transaction.Begin(db, cfg);
      var _ :- LockPaymentForUpdate(tx, d.payment, d.merchant);
      var _ :- Db.InsertDispute(tx, d);
      Db.UpdatePaymentStatus(tx, d.payment, Disputed);
      InsertOutboxEvent(tx, Event(DisputeCreated, d.id, Some(d.payment), PaymentsTopic));
      var committed := tx.Commit(db);
      return Ok(d);
    }
  }
}
