/** When the balances stored in the ledger rows are exact. */
module RunningBalances {
  import opened Models
  import opened Sums
  import opened Fees
  import opened Ledger
  import opened Schema
  import opened Transactions
  import opened Protocol
  import opened Preservation
  import opened Safety

  /** The pair's balances are those of all earlier rows on the credited account. */
  predicate ExactAt(rows: seq<Entry>, k: nat)
    requires 2 * k + 1 < |rows|
  {
    var c := rows[2 * k + 1];
    && c.balanceBefore == Balance(rows[..2 * k], c.merchant, c.account)
    && c.balanceAfter == Balance(rows[..2 * k], c.merchant, c.account) + c.amount
  }

  ghost predicate Exact(rows: seq<Entry>) {
    |rows| % 2 == 0 && forall k :: 0 <= k < |rows| / 2 ==> ExactAt(rows, k)
  }

  /** Every row of the merchant that other transactions committed first was visible. */
  predicate Sees(rows: seq<Entry>, own: nat, seen: Option<nat>, merchant: Id)
    requires own <= |rows|
  {
    seen.Some? ==> forall i :: seen.value <= i < own ==> rows[i].merchant != merchant
  }

  lemma WriteKeepsExact(cfg: Config, rows: seq<Entry>, own: nat, stamp: Stamp, p: Posting)
    requires own <= |rows| && Exact(rows) && Sees(rows, own, stamp.seen, p.merchant)
    requires WriteDoubleEntry(cfg, rows, own, stamp, p).Ok?
    ensures Exact(WriteDoubleEntry(cfg, rows, own, stamp, p).value)
  {
    WriteOutcome(cfg, rows, own, stamp, p);
    RunningBalanceExact(cfg, rows, own, stamp, p);
    if stamp.seen.Some? && stamp.seen.value < own {
      SumExtend([], rows[stamp.seen.value..own], OnAccount(p.merchant, p.credit));
    }
    var (debit, credit) := Pair(cfg, rows, own, stamp, p);
    ExactAppended(rows, debit, credit);
  }

  lemma ExactAppended(rows: seq<Entry>, debit: Entry, credit: Entry)
    requires Exact(rows)
    requires credit.balanceBefore == Balance(rows, credit.merchant, credit.account)
    requires credit.balanceAfter == Balance(rows, credit.merchant, credit.account) + credit.amount
    ensures Exact(rows + [debit] + [credit])
  {
    var after := rows + [debit] + [credit];
    TwoMore(rows, debit, credit);
    forall k | 0 <= k < |after| / 2 ensures ExactAt(after, k) {
      if k < |rows| / 2 {
        assert ExactAt(rows, k);
        assert after[..2 * k] == rows[..2 * k] && after[2 * k + 1] == rows[2 * k + 1];
      } else {
        assert after[..2 * k] == rows;
      }
    }
  }

  lemma PostKeepsExact(cfg: Config, rows: seq<Entry>, p: Payment, base: int, capture: Stamp, fee: Stamp)
    requires Exact(rows)
    requires Sees(rows, |rows|, capture.seen, p.merchant) && Sees(rows, |rows|, fee.seen, p.merchant)
    requires PostCapture(cfg, rows, p, base, capture, fee).Ok?
    ensures Exact(PostCapture(cfg, rows, p, base, capture, fee).value)
  {
    WriteKeepsExact(cfg, rows, |rows|, capture, CapturePosting(p));
    var posted := WriteDoubleEntry(cfg, rows, |rows|, capture, CapturePosting(p)).value;
    WrittenRows(cfg, rows, |rows|, capture, CapturePosting(p));
    if Fee(cfg.rate, base) > 0 {
      WriteKeepsExact(cfg, posted, |rows|, fee, FeePosting(p, Fee(cfg.rate, base)));
    }
  }

  /** The step's ledger reads miss no committed row of the merchant it writes for. */
  predicate DoesNotOverlap(s: System, a: Action) {
    var rows := s.db.ledger;
    match a
    case CreateFinish(req, capture, fee) =>
      req in s.requests && s.requests[req].Approved? ==>
        && Sees(rows, |rows|, capture.seen, s.requests[req].payment.merchant)
        && Sees(rows, |rows|, fee.seen, s.requests[req].payment.merchant)
    case CaptureFinish(req, capture, fee) =>
      req in s.requests && s.requests[req].CaptureGranted? ==>
        && Sees(rows, |rows|, capture.seen, s.requests[req].merchant)
        && Sees(rows, |rows|, fee.seen, s.requests[req].merchant)
    case RefundStart(_, refund, stamp) => Sees(rows, |rows|, stamp.seen, refund.merchant)
    case _ => true
  }

  lemma StepKeepsExact(cfg: Config, s: System, a: Action)
    requires Exact(s.db.ledger) && DoesNotOverlap(s, a)
    ensures Exact(Next(cfg, s, a).db.ledger)
  {
    if a.CreateFinish? && a.req in s.requests && s.requests[a.req].Approved? {
      FinishKeepsExact(cfg, s.db, s.requests[a.req].payment, a.capture, a.fee);
    } else if a.CaptureFinish? && a.req in s.requests && s.requests[a.req].CaptureGranted? {
      var pc := s.requests[a.req];
      CaptureKeepsExact(cfg, s.db, pc.id, pc.merchant, pc.amount, a.capture, a.fee);
    } else if a.RefundStart? && CreateRefund(cfg, s.db, a.refund, a.stamp).Ok? {
      var r := CreateRefund(cfg, s.db, a.refund, a.stamp).value.1;
      RefundCommits(cfg, s.db, a.refund, a.stamp);
      WriteKeepsExact(cfg, s.db.ledger, |s.db.ledger|, a.stamp,
        RefundPosting(r.payment, r.merchant, r.currency, r.amount));
    } else {
      LedgerUntouched(cfg, s, a);
    }
  }

  lemma FinishKeepsExact(cfg: Config, t: Tables, request: Payment, capture: Stamp, fee: Stamp)
    requires Exact(t.ledger)
    requires Sees(t.ledger, |t.ledger|, capture.seen, request.merchant)
    requires Sees(t.ledger, |t.ledger|, fee.seen, request.merchant)
    ensures FinishCharge(cfg, t, request, capture, fee).Ok? ==>
              Exact(FinishCharge(cfg, t, request, capture, fee).value.0.ledger)
  {
    var done := FinishCharge(cfg, t, request, capture, fee);
    if done.Ok? && done.value.1.status == Captured {
      PostKeepsExact(cfg, t.ledger, done.value.1, done.value.1.amount, capture, fee);
    }
  }

  lemma CaptureKeepsExact(
    cfg: Config, t: Tables, id: Id, merchant: Id, amount: Option<int>, capture: Stamp, fee: Stamp)
    requires Exact(t.ledger)
    requires Sees(t.ledger, |t.ledger|, capture.seen, merchant) && Sees(t.ledger, |t.ledger|, fee.seen, merchant)
    ensures CapturePayment(cfg, t, id, merchant, amount, capture, fee).Ok? ==>
              Exact(CapturePayment(cfg, t, id, merchant, amount, capture, fee).value.0.ledger)
  {
    var done := CapturePayment(cfg, t, id, merchant, amount, capture, fee);
    if done.Ok? {
      PostKeepsExact(cfg, t.ledger, done.value.1, done.value.1.Charged(), capture, fee);
    }
  }

  /** No two transactions of one merchant overlap in the run. */
  ghost predicate NonOverlapping(run: seq<Action>, states: seq<System>)
    requires |states| == |run| + 1
  {
    forall k :: 0 <= k < |run| ==> DoesNotOverlap(states[k], run[k])
  }

  /** If transactions of one merchant do not overlap, every stored balance is the fold of all earlier rows. */
  lemma {:induction false} StoredBalancesExact(
    cfg: Config, initial: map<Id, MerchantBalance>, run: seq<Action>, states: seq<System>)
    requires Passes(cfg, Start(initial), run, states) && NonOverlapping(run, states)
    ensures Exact(states[|run|].db.ledger)
    decreases |run|
  {
    if run != [] {
      var front := run[..|run| - 1];
      PassesFront(cfg, Start(initial), run, states);
      forall k | 0 <= k < |front| ensures DoesNotOverlap(states[..|run|][k], front[k]) {
        assert DoesNotOverlap(states[k], run[k]);
      }
      StoredBalancesExact(cfg, initial, front, states[..|run|]);
      StepKeepsExact(cfg, states[|run| - 1], run[|run| - 1]);
    }
  }
}
