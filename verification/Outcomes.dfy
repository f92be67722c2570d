/** The outcome of every transaction, error by error, on any tables (crates/payment-service/src/orchestrator.rs,
    dispute.rs and crates/settlement-worker/src/settler.rs). */
module Outcomes {
  import opened Models
  import opened Sums
  import opened Fees
  import opened Ledger
  import opened Schema
  import opened Transactions
  import opened Preservation

  predicate Mine(t: Tables, id: Id, merchant: Id) {
    id in t.payments && t.payments[id].merchant == merchant
  }

  /** The capture pair of this amount, and the fee pair if there is a fee, can be written and committed. */
  predicate Postable(cfg: Config, rows: seq<Entry>, amount: int, capture: Stamp, fee: Stamp) {
    && cfg.deferredReference && amount > 0 && FreshIds(rows, capture)
    && (Fee(cfg.rate, amount) > 0 ==>
          && FreshIds(rows, fee)
          && {fee.debitId, fee.creditId} !! {capture.debitId, capture.creditId})
  }

  lemma PostOutcome(cfg: Config, rows: seq<Entry>, p: Payment, capture: Stamp, fee: Stamp)
    ensures var posted := PostCapture(cfg, rows, p, p.Charged(), capture, fee);
            if Postable(cfg, rows, p.Charged(), capture, fee)
            then posted.Ok? && CheckReferences(cfg, posted.value, |rows|) == posted && rows <= posted.value
            else posted == Err(Database)
  {
    WriteOutcome(cfg, rows, |rows|, capture, CapturePosting(p));
    var first := WriteDoubleEntry(cfg, rows, |rows|, capture, CapturePosting(p));
    if first.Ok? {
      WriteResolves(cfg, rows, |rows|, capture, CapturePosting(p), |rows|);
      if Fee(cfg.rate, p.Charged()) > 0 {
        FeeOutcome(cfg, rows, p, capture, fee);
      }
    }
  }

  /** Ids are new after a write exactly if they were before and are not those written. */
  lemma FreshAfterPair(rows: seq<Entry>, debit: Entry, credit: Entry, stamp: Stamp)
    ensures FreshIds(rows + [debit] + [credit], stamp) <==>
              FreshIds(rows, stamp) && {stamp.debitId, stamp.creditId} !! {debit.id, credit.id}
  {
    TwoMore(rows, debit, credit);
    var after := rows + [debit] + [credit];
    if FreshIds(after, stamp) {
      assert forall i :: 0 <= i < |rows| ==> rows[i] == after[i];
      assert after[|rows|].id != stamp.debitId && after[|rows| + 1].id != stamp.debitId;
    }
  }

  lemma FeeOutcome(cfg: Config, rows: seq<Entry>, p: Payment, capture: Stamp, fee: Stamp)
    requires WriteDoubleEntry(cfg, rows, |rows|, capture, CapturePosting(p)).Ok? && Fee(cfg.rate, p.Charged()) > 0
    requires CheckReferences(cfg, WriteDoubleEntry(cfg, rows, |rows|, capture, CapturePosting(p)).value, |rows|).Ok?
    ensures var posted := PostCapture(cfg, rows, p, p.Charged(), capture, fee);
            if Postable(cfg, rows, p.Charged(), capture, fee)
            then posted.Ok? && CheckReferences(cfg, posted.value, |rows|) == posted && rows <= posted.value
            else posted == Err(Database)
  {
    var first := WriteDoubleEntry(cfg, rows, |rows|, capture, CapturePosting(p)).value;
    var posting := FeePosting(p, Fee(cfg.rate, p.Charged()));
    var (debit, credit) := Pair(cfg, rows, |rows|, capture, CapturePosting(p));
    WriteOutcome(cfg, rows, |rows|, capture, CapturePosting(p));
    FreshAfterPair(rows, debit, credit, fee);
    FeeWritten(cfg, first, |rows|, fee, posting);
  }

  /** A second write of a transaction whose rows so far resolve. */
  lemma FeeWritten(cfg: Config, first: seq<Entry>, own: nat, fee: Stamp, posting: Posting)
    requires own <= |first| && cfg.deferredReference && posting.amount > 0 && CheckReferences(cfg, first, own).Ok?
    ensures var posted := WriteDoubleEntry(cfg, first, own, fee, posting);
            if FreshIds(first, fee)
            then posted.Ok? && CheckReferences(cfg, posted.value, own) == posted && first <= posted.value
            else posted == Err(Database)
  {
    WriteOutcome(cfg, first, own, fee, posting);
    if FreshIds(first, fee) {
      WriteResolves(cfg, first, own, fee, posting, own);
      WrittenRows(cfg, first, own, fee, posting);
    }
  }

  /** What a charge or capture commits: two columns of one row, ledger rows if it captures, and the event on both
      topics. */
  predicate ChargeWritten(t: Tables, u: Tables, row: Payment, kind: EventType) {
    && u == t.(payments := t.payments[row.id := row], ledger := u.ledger,
               outbox := t.outbox + [Event(kind, row.id, Some(row.id), PaymentsTopic)]
                                  + [Event(kind, row.id, Some(row.id), WebhooksTopic)])
    && t.ledger <= u.ledger
  }

  /** capture_payment. */
  lemma CaptureOutcome(
    cfg: Config, t: Tables, id: Id, merchant: Id, amount: Option<int>, capture: Stamp, fee: Stamp)
    requires id in t.payments ==> t.payments[id].id == id
    ensures var result := CapturePayment(cfg, t, id, merchant, amount, capture, fee);
            if !Mine(t, id, merchant) then result == Err(NotFound)
            else
              var p, captured := t.payments[id], amount.GetOr(t.payments[id].amount);
              if p.status != Authorized then result == Err(InvalidStateTransition(p.status, Captured))
              else if !Postable(cfg, t.ledger, captured, capture, fee) then result == Err(Database)
              else
                && result.Ok? && result.value.1 == p.(status := Captured, capturedAmount := Some(captured))
                && ChargeWritten(t, result.value.0, result.value.1, PaymentCaptured)
  {
    if Mine(t, id, merchant) {
      var p := t.payments[id];
      OneStep(p.status, Captured);
      var row := p.(status := Captured, capturedAmount := Some(amount.GetOr(p.amount)));
      PostOutcome(cfg, t.ledger, row, capture, fee);
    }
  }

  lemma OneStep(from: PaymentStatus, to: PaymentStatus)
    ensures Walk(from, [to]) == if from.CanTransitionTo(to) then Ok(to) else Err(InvalidStateTransition(from, to))
  {
    assert [to][1..] == [];
  }

  /** The commit of create_payment after an approved charge. */
  lemma FinishOutcome(cfg: Config, t: Tables, request: Payment, capture: Stamp, fee: Stamp)
    requires request.id in t.payments ==> t.payments[request.id].id == request.id
    requires request.id in t.payments ==> t.payments[request.id].amount == request.amount
    ensures var result := FinishCharge(cfg, t, request, capture, fee);
            if !Mine(t, request.id, request.merchant) then result == Err(NotFound)
            else
              var p := t.payments[request.id];
              if p.status != Created then result == Err(InvalidStateTransition(p.status, Pending))
              else if request.captureMethod == Manual then
                && result.Ok? && result.value.1 == p.(status := Authorized)
                && ChargeWritten(t, result.value.0, result.value.1, PaymentAuthorized)
                && result.value.0.ledger == t.ledger
              else if !Postable(cfg, t.ledger, p.amount, capture, fee) then result == Err(Database)
              else
                && result.Ok? && result.value.1 == p.(status := Captured, capturedAmount := Some(p.amount))
                && ChargeWritten(t, result.value.0, result.value.1, PaymentCaptured)
  {
    if Mine(t, request.id, request.merchant) {
      var p := t.payments[request.id];
      ChargeWalks(p.status, request.captureMethod);
      PostOutcome(cfg, t.ledger, p.(status := Captured, capturedAmount := Some(p.amount)), capture, fee);
    }
  }

  lemma ChargeWalks(from: PaymentStatus, mode: CaptureMethod)
    ensures Walk(from, ChargePath(mode))
         == if from != Created then Err(InvalidStateTransition(from, Pending))
            else if mode == Automatic then Ok(Captured) else Ok(Authorized)
  {
    var path := ChargePath(mode);
    assert path[1..][0] == Authorized && path[1..][1..] == path[2..];
    if mode == Automatic {
      OneStep(Authorized, Captured);
      assert path[2..] == [Captured];
    } else {
      assert path[1..] == [Authorized];
      OneStep(Pending, Authorized);
    }
  }

  /** The merchant has used the key for a refund before. */
  predicate KeyUsed(t: Tables, merchant: Id, key: Option<string>) {
    key.Some? && exists i :: 0 <= i < |t.refunds| && t.refunds[i].merchant == merchant && t.refunds[i].key == key
  }

  /** What a refund commits: the counter, a row unless the key was used, ledger rows and the event. */
  predicate RefundWritten(t: Tables, u: Tables, r: Refund) {
    && r.payment in t.payments
    && u == t.(payments := t.payments[r.payment := t.payments[r.payment].(
                             refundedAmount := t.payments[r.payment].refundedAmount + r.amount)],
               refunds := if KeyUsed(t, r.merchant, r.key) then t.refunds else t.refunds + [r],
               ledger := u.ledger,
               outbox := t.outbox + [Event(RefundPendingEvent, r.id, Some(r.payment), PaymentsTopic)])
    && t.ledger <= u.ledger && |u.ledger| == |t.ledger| + 2
  }

  /** create_refund up to its commit. The amount error always comes from can_refund on the locked row, with the
      refundable amount as the limit: the guard of the UPDATE never fires. */
  lemma RefundOutcome(cfg: Config, t: Tables, request: RefundRequest, stamp: Stamp)
    ensures var result := CreateRefund(cfg, t, request, stamp);
            if !Mine(t, request.payment, request.merchant) then result == Err(NotFound)
            else
              var p := t.payments[request.payment];
              var left := p.Charged() - p.refundedAmount;
              var amount := match request.amount case Some(n) => n case None => left;
              if p.status != Captured && p.status != Settled then result == Err(NotRefundable(p.status))
              else if amount <= 0 || amount > left then result == Err(AmountExceedsLimit(amount, left))
              else if !KeyUsed(t, request.merchant, request.key) && RefundIdTaken(t, request.id) then result == Err(Database)
              else if !cfg.deferredReference || !FreshIds(t.ledger, stamp) then result == Err(Database)
              else
                && result.Ok? && RefundWritten(t, result.value.0, result.value.1)
                && result.value.1 == Refund(request.id, request.payment, request.merchant, amount, p.currency,
                                            RefundPending, request.key)
  {
    if Mine(t, request.payment, request.merchant) {
      var p := t.payments[request.payment];
      if p.CanRefund(NewRefund(request, p).amount) {
        RefundCommitOutcome(cfg, t, NewRefund(request, p), stamp);
      }
    }
  }

  lemma RefundCommitOutcome(cfg: Config, t: Tables, r: Refund, stamp: Stamp)
    requires r.payment in t.payments && t.payments[r.payment].CanRefund(r.amount)
    requires t.payments[r.payment].merchant == r.merchant && t.payments[r.payment].currency == r.currency
    ensures var result := CommitRefund(cfg, t, r, stamp);
            if (!KeyUsed(t, r.merchant, r.key) && RefundIdTaken(t, r.id))
               || !cfg.deferredReference || !FreshIds(t.ledger, stamp)
            then result == Err(Database)
            else result.Ok? && RefundWritten(t, result.value, r)
  {
    var posting := RefundPosting(r.payment, r.merchant, r.currency, r.amount);
    WriteOutcome(cfg, t.ledger, |t.ledger|, stamp, posting);
    if WriteDoubleEntry(cfg, t.ledger, |t.ledger|, stamp, posting).Ok? {
      WriteResolves(cfg, t.ledger, |t.ledger|, stamp, posting, |t.ledger|);
    }
    if CommitRefund(cfg, t, r, stamp).Ok? {
      CommittedRefund(cfg, t, r, stamp);
    }
  }

  /** The UPDATE's own guard: whatever amount a caller asks for, refunded_amount ends within what was charged. */
  lemma GuardSuffices(t: Tables, id: Id, amount: int)
    requires id in t.payments
    ensures IncrementRefunded(t, id, amount).Ok? <==> amount <= t.payments[id].Charged() - t.payments[id].refundedAmount
    ensures IncrementRefunded(t, id, amount).Ok? ==>
              var row := IncrementRefunded(t, id, amount).value.payments[id];
              row.refundedAmount == t.payments[id].refundedAmount + amount <= row.Charged()
  {
  }

  /** cancel_payment. */
  lemma CancelOutcome(t: Tables, id: Id, merchant: Id)
    ensures var result := CancelPayment(t, id, merchant);
            if !Mine(t, id, merchant) then result == Err(NotFound)
            else
              var p := t.payments[id];
              if p.status != Created && p.status != RequiresAction && p.status != Authorized
              then result == Err(InvalidStateTransition(p.status, Cancelled))
              else
                && result.Ok? && result.value.1 == p.(status := Cancelled)
                && result.value.0 == t.(payments := t.payments[id := result.value.1],
                                        outbox := t.outbox + [Event(PaymentCancelled, id, Some(id), PaymentsTopic)])
  {
    if Mine(t, id, merchant) {
      OneStep(t.payments[id].status, Cancelled);
    }
  }

  /** create_dispute. */
  lemma DisputeOutcome(t: Tables, d: Dispute)
    ensures var result := CreateDispute(t, d);
            if !Mine(t, d.payment, d.merchant) then result == Err(NotFound)
            else if d.amount <= 0 || exists i :: 0 <= i < |t.disputes| && t.disputes[i].id == d.id
            then result == Err(Database)
            else
              result == Ok(t.(payments := t.payments[d.payment := t.payments[d.payment].(status := Disputed)],
                              disputes := t.disputes + [d],
                              outbox := t.outbox + [Event(DisputeCreated, d.id, Some(d.payment), PaymentsTopic)]))
  {
  }

  /** The merchant's captures that are not settled and whose rows nobody else holds. */
  predicate Selected(t: Tables, merchant: Id, locked: set<Id>, id: Id) {
    && id in t.payments && id !in locked && t.payments[id].merchant == merchant
    && t.payments[id].status == Captured && t.payments[id].settledAt.None?
  }

  /** What a settlement commits. */
  ghost predicate SettlesAll(cfg: Config, t: Tables, u: Tables, id: Id, merchant: Id, locked: set<Id>, now: int) {
    var total := SumMap(map p | p in t.payments && Selected(t, merchant, locked, p) :: t.payments[p], ChargedAmount());
    var paid := total - Fee(cfg.rate, total);
    && u.payments.Keys == t.payments.Keys
    && (forall p :: p in t.payments ==>
          u.payments[p] == if Selected(t, merchant, locked, p)
                           then t.payments[p].(status := Settled, settledAt := Some(now)) else t.payments[p])
    && |u.settlements| == |t.settlements| + 1 && t.settlements <= u.settlements
    && (var s := u.settlements[|t.settlements|];
        && s.id == id && s.merchant == merchant && s.total == total && s.net == paid && s.net + s.fee == total
        && forall p :: p in s.members <==> Selected(t, merchant, locked, p))
    && u.balances.Keys == t.balances.Keys
    && (forall m :: m in t.balances && m != merchant ==> u.balances[m] == t.balances[m])
    && (merchant in t.balances ==>
          && u.balances[merchant].available == t.balances[merchant].available + paid
          && u.balances[merchant].pending
             == if t.balances[merchant].pending > total then t.balances[merchant].pending - total else 0)
    && u.outbox == t.outbox + [Event(SettlementCompleted, id, None, WebhooksTopic)]
    && u.ledger == t.ledger && u.refunds == t.refunds && u.disputes == t.disputes
  }

  lemma SelectedMembers(cfg: Config, t: Tables, id: Id, merchant: Id, locked: set<Id>) returns (s: Settlement)
    ensures s == NewSettlement(cfg, t, id, merchant, locked)
    ensures forall p :: p in s.members <==> Selected(t, merchant, locked, p)
    ensures s.total
         == SumMap(map p | p in t.payments && Selected(t, merchant, locked, p) :: t.payments[p], ChargedAmount())
    ensures s.members == {} <==> forall p :: !Selected(t, merchant, locked, p)
  {
    s := NewSettlement(cfg, t, id, merchant, locked);
    assert forall p :: p in s.members <==> Selected(t, merchant, locked, p);
    assert Rows(t, s.members) == map p | p in t.payments && Selected(t, merchant, locked, p) :: t.payments[p];
    if s.members != {} {
      var p :| p in s.members;
      assert Selected(t, merchant, locked, p);
    }
  }

  /** The balance columns a settlement writes. */
  lemma Credited(t: Tables, merchant: Id, net: int, total: int)
    ensures var after := CreditBalance(t, merchant, net, total).balances;
            && after.Keys == t.balances.Keys
            && (forall m :: m in t.balances && m != merchant ==> after[m] == t.balances[m])
            && (merchant in t.balances ==>
                  && after[merchant].available == t.balances[merchant].available + net
                  && after[merchant].pending
                     == if t.balances[merchant].pending > total then t.balances[merchant].pending - total else 0)
  {
  }

  lemma CommitsAll(cfg: Config, t: Tables, u: Tables, s: Settlement, locked: set<Id>, now: int)
    requires Settles(cfg, t, u, s, now) && u.disputes == t.disputes
    requires forall p :: p in s.members <==> Selected(t, s.merchant, locked, p)
    requires s.total
          == SumMap(map p | p in t.payments && Selected(t, s.merchant, locked, p) :: t.payments[p], ChargedAmount())
    ensures SettlesAll(cfg, t, u, s.id, s.merchant, locked, now)
  {
    Credited(t, s.merchant, s.net, s.total);
    assert u.settlements[|t.settlements|] == s;
  }

  /** settle_merchant. */
  lemma SettleOutcome(cfg: Config, t: Tables, id: Id, merchant: Id, locked: set<Id>, now: int)
    ensures var result := SettleMerchant(cfg, t, id, merchant, locked, now);
            if forall p :: !Selected(t, merchant, locked, p) then result == Ok((t, 0))
            else if exists i :: 0 <= i < |t.settlements| && t.settlements[i].id == id then result == Err(Database)
            else
              && result.Ok? && SettlesAll(cfg, t, result.value.0, id, merchant, locked, now)
              && result.value.1 == result.value.0.settlements[|t.settlements|].net
  {
    var s := SelectedMembers(cfg, t, id, merchant, locked);
    if s.members != {} && InsertSettlement(t, s).Ok? {
      var u := SettleMerchant(cfg, t, id, merchant, locked, now).value.0;
      SettleCommits(cfg, t, id, merchant, locked, now);
      CommitsAll(cfg, t, u, s, locked, now);
      assert u.settlements[|t.settlements|] == s;
    }
  }
}
