/** Transactions over the shared tables, and the statements they run (crates/payment-service/src/db.rs). */
module Db {
  import opened Models
  import opened Ledger
  import opened Schema

  /** The committed tables. */
  class Store {
    var tables: Tables

    constructor (balances: map<Id, MerchantBalance>)
      ensures tables == Tables(map[], [], [], [], balances, [], [])
    {
      tables := Tables(map[], [], [], [], balances, [], []);
    }
  }

  /** A transaction's working copy; dropping it without Commit is a rollback. */
  class Transaction {
    const cfg: Config
    /** How many ledger rows were committed before this transaction's own. */
    const own: nat
    var payments: map<Id, Payment>
    var refunds: seq<Refund>
    var ledger: seq<Entry>
    var settlements: seq<Settlement>
    var balances: map<Id, MerchantBalance>
    var disputes: seq<Dispute>
    var outbox: seq<Event>

    function View(): Tables
      reads this
    {
      Tables(payments, refunds, ledger, settlements, balances, disputes, outbox)
    }

    constructor Begin(db: Store, cfg: Config)
      ensures View() == db.tables && this.cfg == cfg && own == |ledger|
    {
      this.cfg, own := cfg, |db.tables.ledger|;
      payments, refunds, ledger := db.tables.payments, db.tables.refunds, db.tables.ledger;
      settlements, balances := db.tables.settlements, db.tables.balances;
      disputes, outbox := db.tables.disputes, db.tables.outbox;
    }

    /** Checks what was deferred, then publishes the working copy. */
    method Commit(db: Store) returns (r: Result<()>)
      modifies db
      ensures match CheckReferences(cfg, ledger, own)
              case Ok(_) => r == Ok(()) && db.tables == View()
              case Err(e) => r == Err(e) && db.tables == old(db.tables)
    {
      if cfg.deferredReference {
        var i := own;
        while i < |ledger|
          invariant own <= i && forall k :: own <= k < i && k < |ledger| ==> HasId(ledger, ledger[k].reference)
        {
          if !HasId(ledger, ledger[i].reference) {
            return Err(AppError.Database);
          }
          i := i + 1;
        }
      }
      db.tables := View();
      return Ok(());
    }
  }

  datatype Inserted = NewRow | SameKeyRow(id: Id) | Refused

  /** A row with the same key wins over the new one; the unique index makes it the only such row. */
  method InsertPaymentIdempotent(tx: Transaction, p: Payment) returns (r: Inserted)
    requires UniqueKeys(tx.payments)
    modifies tx
    ensures match Schema.InsertPaymentIdempotent(old(tx.View()), p)
            case Inserted(t) => r == NewRow && tx.View() == t
            case Existing(id) => r == SameKeyRow(id) && tx.View() == old(tx.View())
            case Rejected => r == Refused && tx.View() == old(tx.View())
  {
    if p.amount <= 0 {
      return Refused;
    }
    if exists id :: id in tx.payments && SameKey(tx.payments[id], p) {
      var id :| id in tx.payments && SameKey(tx.payments[id], p);
      assert forall other :: other in tx.payments && SameKey(tx.payments[other], p) ==>
          SameKey(tx.payments[other], tx.payments[id]);
      return SameKeyRow(id);
    }
    if p.id in tx.payments {
      return Refused;
    }
    tx.payments := tx.payments[p.id := p.(refundedAmount := 0, settledAt := None)];
    return NewRow;
  }

  method LockPaymentForUpdate(tx: Transaction, id: Id, merchant: Id) returns (r: Result<Payment>)
    ensures r == LockPayment(tx.View(), id, merchant)
  {
    if id in tx.payments && tx.payments[id].merchant == merchant {
      return Ok(tx.payments[id]);
    }
    return Err(NotFound);
  }

  method UpdatePaymentAfterCharge(tx: Transaction, p: Payment)
    modifies tx
    ensures tx.View() == Schema.UpdatePaymentAfterCharge(old(tx.View()), p)
  {
    if p.id in tx.payments {
      var row := tx.payments[p.id];
      tx.payments := tx.payments[p.id := row.(status := p.status, capturedAmount := p.capturedAmount)];
    }
  }

  method UpdatePaymentStatus(tx: Transaction, id: Id, status: PaymentStatus)
    modifies tx
    ensures tx.View() == Schema.UpdatePaymentStatus(old(tx.View()), id, status)
  {
    if id in tx.payments {
      tx.payments := tx.payments[id := tx.payments[id].(status := status)];
    }
  }

  method IncrementRefundedAmount(tx: Transaction, id: Id, amount: int) returns (r: Result<()>)
    modifies tx
    ensures match IncrementRefunded(old(tx.View()), id, amount)
            case Ok(t) => r == Ok(()) && tx.View() == t
            case Err(e) => r == Err(e) && tx.View() == old(tx.View())
  {
    if id !in tx.payments || tx.payments[id].refundedAmount + amount > tx.payments[id].Charged() {
      return Err(AmountExceedsLimit(amount, 0));
    }
    var row := tx.payments[id];
    tx.payments := tx.payments[id := row.(refundedAmount := row.refundedAmount + amount)];
    return Ok(());
  }

  method InsertOutboxEvent(tx: Transaction, e: Event)
    modifies tx
    ensures tx.View() == Publish(old(tx.View()), e)
  {
    tx.outbox := tx.outbox + [e];
  }

  /** Looks for the merchant's key among the rows, as the unique index does. */
  method HasRefundKey(tx: Transaction, r: Refund) returns (taken: bool)
    ensures taken == RefundKeyTaken(tx.View(), r)
  {
    taken := false;
    if r.key.None? {
      return;
    }
    for i := 0 to |tx.refunds|
      invariant !taken
      invariant forall k :: 0 <= k < i ==> tx.refunds[k].merchant != r.merchant || tx.refunds[k].key != r.key
    {
      if tx.refunds[i].merchant == r.merchant && tx.refunds[i].key == r.key {
        return true;
      }
    }
  }

  method InsertRefund(tx: Transaction, r: Refund) returns (result: Result<()>)
    modifies tx
    ensures match Schema.InsertRefund(old(tx.View()), r)
            case Ok(t) => result == Ok(()) && tx.View() == t
            case Err(e) => result == Err(e) && tx.View() == old(tx.View())
  {
    if r.amount <= 0 {
      return Err(AppError.Database);
    }
    var taken := HasRefundKey(tx, r);
    if taken {
      return Ok(());
    }
    if exists i :: 0 <= i < |tx.refunds| && tx.refunds[i].id == r.id {
      return Err(AppError.Database);
    }
    tx.refunds := tx.refunds + [r];
    return Ok(());
  }

  /** Runs on the pool, outside any transaction: one committed UPDATE. */
  method UpdateRefundStatus(db: Store, id: Id, status: RefundStatus)
    modifies db
    ensures db.tables == Schema.UpdateRefundStatus(old(db.tables), id, status)
  {
    var rows := db.tables.refunds;
    for i := 0 to |rows|
      invariant |rows| == |db.tables.refunds|
      invariant forall k :: 0 <= k < i ==> rows[k] == WithRefundStatus(db.tables.refunds, id, status)[k]
      invariant forall k :: i <= k < |rows| ==> rows[k] == db.tables.refunds[k]
    {
      if rows[i].id == id {
        rows := rows[i := rows[i].(status := status)];
      }
    }
    assert rows == WithRefundStatus(db.tables.refunds, id, status);
    db.tables := db.tables.(refunds := rows);
  }

  method InsertDispute(tx: Transaction, d: Dispute) returns (r: Result<()>)
    modifies tx
    ensures match Schema.InsertDispute(old(tx.View()), d)
            case Ok(t) => r == Ok(()) && tx.View() == t
            case Err(e) => r == Err(e) && tx.View() == old(tx.View())
  {
    if d.amount <= 0 || exists i :: 0 <= i < |tx.disputes| && tx.disputes[i].id == d.id {
      return Err(AppError.Database);
    }
    tx.disputes := tx.disputes + [d];
    return Ok(());
  }

  method InsertSettlement(tx: Transaction, s: Settlement) returns (r: Result<()>)
    modifies tx
    ensures match Schema.InsertSettlement(old(tx.View()), s)
            case Ok(t) => r == Ok(()) && tx.View() == t
            case Err(e) => r == Err(e) && tx.View() == old(tx.View())
  {
    if exists i :: 0 <= i < |tx.settlements| && tx.settlements[i].id == s.id {
      return Err(AppError.Database);
    }
    tx.settlements := tx.settlements + [s];
    return Ok(());
  }

  method MarkPaymentsSettled(tx: Transaction, ids: set<Id>, now: int)
    modifies tx
    ensures tx.View() == MarkSettled(old(tx.View()), ids, now)
  {
    tx.payments := map p | p in tx.payments ::
      if p in ids then tx.payments[p].(status := Settled, settledAt := Some(now)) else tx.payments[p];
  }

  /** GREATEST(0, pending - total); a merchant without a balance row is skipped. */
  method CreditMerchant(tx: Transaction, merchant: Id, net: int, total: int)
    modifies tx
    ensures tx.View() == CreditBalance(old(tx.View()), merchant, net, total)
  {
    if merchant in tx.balances {
      var b := tx.balances[merchant];
      var left := if b.pending - total > 0 then b.pending - total else 0;
      tx.balances := tx.balances[merchant := MerchantBalance(b.available + net, left)];
    }
  }
}
