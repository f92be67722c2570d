/** Writes double entries inside a transaction (crates/payment-service/src/ledger.rs). */
module LedgerWriter {
  import opened Models
  import opened HashChain
  import opened Ledger
  import opened Schema
  import opened Db

  class Writer {
    const tx: Transaction

    constructor (tx: Transaction)
      ensures this.tx == tx
    {
      this.tx := tx;
    }

    method InsertEntry(e: Entry) returns (r: Result<()>)
      modifies tx
      ensures match Ledger.InsertEntry(tx.cfg, old(tx.ledger), e)
              case Ok(rows) => r == Ok(()) && tx.View() == old(tx.View()).(ledger := rows)
              case Err(error) => r == Err(error) && tx.View() == old(tx.View())
    {
      if e.amount <= 0 || HasId(tx.ledger, e.id) {
        return Err(AppError.Database);
      }
      if !tx.cfg.deferredReference && !HasId(tx.ledger + [e], e.reference) {
        return Err(AppError.Database);
      }
      tx.ledger := tx.ledger + [e];
      return Ok(());
    }

    /** The latest visible row of the merchant, scanning the table once. */
    method GetPrevHash(visible: seq<Entry>, merchant: Id, tie: nat) returns (hash: string)
      ensures hash == PrevHashOf(visible, merchant, tie)
    {
      var best: Option<nat> := None;
      for i := 0 to |visible|
        invariant best == LatestIndex(visible[..i], merchant, tie)
        invariant best.Some? ==> best.value < i
      {
        assert visible[..i + 1][..i] == visible[..i];
        if visible[i].merchant == merchant {
          if best.None? || visible[best.value].createdAt < visible[i].createdAt
             || (visible[best.value].createdAt == visible[i].createdAt && i == tie) {
            best := Some(i);
          }
        }
      }
      assert visible[..|visible|] == visible;
      hash := if best.Some? then visible[best.value].hash else GENESIS;
    }

    method WriteDoubleEntry(stamp: Stamp, p: Posting) returns (r: Result<()>)
      requires tx.own <= |tx.ledger|
      modifies tx
      ensures match Ledger.WriteDoubleEntry(tx.cfg, old(tx.ledger), tx.own, stamp, p)
              case Ok(rows) => r == Ok(()) && tx.View() == old(tx.View()).(ledger := rows)
              case Err(e) => r == Err(e)
    {
      var balance := Balance(Visible(tx.ledger, tx.own, stamp.seen), p.merchant, p.credit);
      var prevHash := GetPrevHash(Visible(tx.ledger, tx.own, stamp.seenByHash), p.merchant, stamp.tie);
      var debitHash := EntryHash(tx.cfg.sha256, prevHash, Link(stamp.debitId, p.amount, stamp.now));
      var creditHash := EntryHash(tx.cfg.sha256, debitHash, Link(stamp.creditId, p.amount, stamp.now));
      var _ :- InsertEntry(Entry(stamp.debitId, p.payment, p.merchant, Debit, p.debit, stamp.creditId, p.amount,
        p.currency, balance, balance, debitHash, stamp.now));
      r := InsertEntry(Entry(stamp.creditId, p.payment, p.merchant, Credit, p.credit, stamp.debitId, p.amount,
        p.currency, balance, balance + p.amount, creditHash, stamp.now));
    }

    method RecordCapture(p: Payment, stamp: Stamp) returns (r: Result<()>)
      requires tx.own <= |tx.ledger|
      modifies tx
      ensures match Ledger.WriteDoubleEntry(tx.cfg, old(tx.ledger), tx.own, stamp, CapturePosting(p))
              case Ok(rows) => r == Ok(()) && tx.View() == old(tx.View()).(ledger := rows)
              case Err(e) => r == Err(e)
    {
      r := WriteDoubleEntry(stamp,
        Posting(p.id, p.merchant, p.currency, p.capturedAmount.GetOr(p.amount), GatewayFloat, MerchantPayable));
    }

    method RecordRefund(refund: Refund, stamp: Stamp) returns (r: Result<()>)
      requires tx.own <= |tx.ledger|
      modifies tx
      ensures match Ledger.WriteDoubleEntry(tx.cfg, old(tx.ledger), tx.own, stamp,
                      RefundPosting(refund.payment, refund.merchant, refund.currency, refund.amount))
              case Ok(rows) => r == Ok(()) && tx.View() == old(tx.View()).(ledger := rows)
              case Err(e) => r == Err(e)
    {
      r := WriteDoubleEntry(stamp,
        Posting(refund.payment, refund.merchant, refund.currency, refund.amount, MerchantPayable, GatewayFloat));
    }

    /** A zero fee writes nothing. */
    method RecordFee(p: Payment, fee: int, stamp: Stamp) returns (r: Result<()>)
      requires tx.own <= |tx.ledger|
      modifies tx
      ensures fee == 0 ==> r == Ok(()) && tx.View() == old(tx.View())
      ensures fee != 0 ==>
                match Ledger.WriteDoubleEntry(tx.cfg, old(tx.ledger), tx.own, stamp, FeePosting(p, fee))
                case Ok(rows) => r == Ok(()) && tx.View() == old(tx.View()).(ledger := rows)
                case Err(e) => r == Err(e)
    {
      if fee == 0 {
        return Ok(());
      }
      r := WriteDoubleEntry(stamp, Posting(p.id, p.merchant, p.currency, fee, MerchantPayable, FeeIncome));
    }
  }
}
