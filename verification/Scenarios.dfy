/** Runs that lead to the states in which a promise of the documentation or of the invariant queries fails. */
module Scenarios {
  import opened Models
  import opened Sums
  import opened Fees
  import opened Ledger
  import opened Schema
  import opened Transactions
  import opened Protocol
  import opened Notices
  import opened Outcomes
  import opened Preservation
  import opened RunningBalances
  import opened Safety

  // ---------- steps that succeed ----------

  predicate Unused(rows: seq<Entry>, ids: set<Id>) {
    forall i :: 0 <= i < |rows| ==> rows[i].id !in ids
  }

  function Fresh(stamp: Stamp): set<Id> {
    {stamp.debitId, stamp.creditId}
  }

  lemma Writes(cfg: Config, rows: seq<Entry>, own: nat, stamp: Stamp, p: Posting, others: set<Id>)
    requires own <= |rows| && p.amount > 0 && cfg.deferredReference
    requires stamp.debitId != stamp.creditId && Unused(rows, Fresh(stamp)) && Unused(rows, others) && Fresh(stamp) !! others
    ensures WriteDoubleEntry(cfg, rows, own, stamp, p).Ok?
    ensures Unused(WriteDoubleEntry(cfg, rows, own, stamp, p).value, others)
  {
    WriteOutcome(cfg, rows, own, stamp, p);
    assert stamp.debitId in Fresh(stamp) && stamp.creditId in Fresh(stamp);
  }

  /** Two stamps with four different ids. */
  predicate Apart(capture: Stamp, fee: Stamp) {
    capture.debitId != capture.creditId && fee.debitId != fee.creditId && Fresh(capture) !! Fresh(fee)
  }

  lemma Posts(cfg: Config, rows: seq<Entry>, p: Payment, base: int, capture: Stamp, fee: Stamp, others: set<Id>)
    requires cfg.deferredReference && p.Charged() > 0 && Apart(capture, fee)
    requires Unused(rows, Fresh(capture)) && Unused(rows, Fresh(fee)) && Unused(rows, others)
    requires Fresh(capture) !! others && Fresh(fee) !! others
    ensures PostCapture(cfg, rows, p, base, capture, fee).Ok?
    ensures Unused(PostCapture(cfg, rows, p, base, capture, fee).value, others)
  {
    Writes(cfg, rows, |rows|, capture, CapturePosting(p), Fresh(fee));
    Writes(cfg, rows, |rows|, capture, CapturePosting(p), others);
    var posted := WriteDoubleEntry(cfg, rows, |rows|, capture, CapturePosting(p)).value;
    WrittenRows(cfg, rows, |rows|, capture, CapturePosting(p));
    if Fee(cfg.rate, base) > 0 {
      Writes(cfg, posted, |rows|, fee, FeePosting(p, Fee(cfg.rate, base)), others);
    }
  }

  predicate Startable(s: System, req: Req, p: Payment) {
    && req !in s.requests && p.id !in s.db.payments && p.amount > 0
    && forall id :: id in s.db.payments ==> !SameKey(s.db.payments[id], p)
  }

  /** A request inserts its payment, passes the fraud check and is charged. */
  lemma Charges(cfg: Config, s: System, req: Req, p: Payment) returns (u: System)
    requires Startable(s, req, p)
    ensures LeadsTo(cfg, s, u)
    ensures u.requests == s.requests[req := Approved(NewPayment(p))] && u.skipped == s.skipped
    ensures u.db == s.db.(payments := s.db.payments[p.id := NewPayment(p)], outbox := u.db.outbox)
  {
    var a, b, c := CreateInsert(req, p), FraudVerdict(req, false), ChargeCall(req, true);
    var s1 := Next(cfg, s, a);
    assert s1.requests == s.requests[req := Screening(NewPayment(p))];
    var s2 := Next(cfg, s1, b);
    assert s2.requests == s.requests[req := Charging(NewPayment(p))];
    u := Next(cfg, s2, c);
    LeadsToItself(cfg, s);
    StepLeads(cfg, s, s, a);
    StepLeads(cfg, s, s1, b);
    StepLeads(cfg, s, s2, c);
  }

  function CapturedRow(p: Payment): Payment {
    p.(status := Captured, capturedAmount := Some(p.amount))
  }

  lemma Walks()
    ensures Walk(Created, [Pending, Authorized, Captured]) == Ok(Captured)
  {
    assert [Pending, Authorized, Captured][1..] == [Authorized, Captured];
    assert [Authorized, Captured][1..] == [Captured];
    assert [Captured][1..] == [];
  }

  lemma FinishAccepted(cfg: Config, t: Tables, p: Payment, capture: Stamp, fee: Stamp)
    requires p.id in t.payments && t.payments[p.id] == p && p.status == Created && p.captureMethod == Automatic
    requires PostCapture(cfg, t.ledger, CapturedRow(p), p.amount, capture, fee).Ok?
    ensures FinishCharge(cfg, t, p, capture, fee).Ok?
    ensures var u := FinishCharge(cfg, t, p, capture, fee).value.0;
            u == t.(payments := t.payments[p.id := CapturedRow(p)], outbox := u.outbox,
                    ledger := PostCapture(cfg, t.ledger, CapturedRow(p), p.amount, capture, fee).value)
  {
    Walks();
    DeferredReferenceHolds(cfg, t.ledger, CapturedRow(p), p.amount, capture, fee);
  }

  /** A charged request with automatic capture finishes. */
  lemma Finishes(cfg: Config, s: System, req: Req, p: Payment, capture: Stamp, fee: Stamp) returns (u: System)
    requires req in s.requests && s.requests[req] == Approved(p)
    requires p.id in s.db.payments && s.db.payments[p.id] == p && p.status == Created && p.captureMethod == Automatic
    requires PostCapture(cfg, s.db.ledger, CapturedRow(p), p.amount, capture, fee).Ok?
    ensures LeadsTo(cfg, s, u) && u.requests == s.requests - {req} && u.skipped == s.skipped
    ensures u.db == s.db.(payments := s.db.payments[p.id := CapturedRow(p)], outbox := u.db.outbox,
                          ledger := PostCapture(cfg, s.db.ledger, CapturedRow(p), p.amount, capture, fee).value)
  {
    FinishAccepted(cfg, s.db, p, capture, fee);
    u := Next(cfg, s, CreateFinish(req, capture, fee));
    assert u.db == FinishCharge(cfg, s.db, p, capture, fee).value.0;
    LeadsToItself(cfg, s);
    StepLeads(cfg, s, s, CreateFinish(req, capture, fee));
  }

  // ---------- running balances under overlap ----------

  /** The rows of a capture that saw none of the rows before it. */
  lemma BlindCapture(cfg: Config, rows: seq<Entry>, p: Payment, capture: Stamp, fee: Stamp)
    requires PostCapture(cfg, rows, p, p.Charged(), capture, fee).Ok? && capture.seen == Some(0)
    requires |rows| % 2 == 0 && Balance(rows, p.merchant, MerchantPayable) != 0
    ensures var after := PostCapture(cfg, rows, p, p.Charged(), capture, fee).value;
            |after| >= |rows| + 2 && !ExactAt(after, |rows| / 2)
  {
    var after := PostCapture(cfg, rows, p, p.Charged(), capture, fee).value;
    var posted := WriteDoubleEntry(cfg, rows, |rows|, capture, CapturePosting(p)).value;
    WrittenRows(cfg, rows, |rows|, capture, CapturePosting(p));
    if Fee(cfg.rate, p.Charged()) > 0 {
      WrittenRows(cfg, posted, |rows|, fee, FeePosting(p, Fee(cfg.rate, p.Charged())));
    }
    assert posted <= after;
    assert Visible(rows, |rows|, Some(0)) == [];
    assert after[..|rows|] == rows;
    assert after[|rows| + 1] == posted[|rows| + 1];
  }

  function FirstCapture(): Stamp {
    Stamp("a", "b", 0, None, None, 0)
  }

  function FirstFee(): Stamp {
    Stamp("c", "d", 0, None, None, 0)
  }

  function SecondCapture(): Stamp {
    Stamp("e", "f", 0, Some(0), Some(0), 0)
  }

  function SecondFee(): Stamp {
    Stamp("g", "h", 0, Some(0), Some(0), 0)
  }

  lemma FirstPosts(cfg: Config, p: Payment)
    requires cfg.deferredReference && p.Charged() > 0
    ensures PostCapture(cfg, [], p, p.Charged(), FirstCapture(), FirstFee()).Ok?
    ensures var rows := PostCapture(cfg, [], p, p.Charged(), FirstCapture(), FirstFee()).value;
            && |rows| % 2 == 0
            && Unused(rows, Fresh(SecondCapture())) && Unused(rows, Fresh(SecondFee()))
  {
    Posts(cfg, [], p, p.Charged(), FirstCapture(), FirstFee(), Fresh(SecondCapture()));
    Posts(cfg, [], p, p.Charged(), FirstCapture(), FirstFee(), Fresh(SecondFee()));
    WriteOutcome(cfg, [], 0, FirstCapture(), CapturePosting(p));
    if Fee(cfg.rate, p.Charged()) > 0 {
      var posted := WriteDoubleEntry(cfg, [], 0, FirstCapture(), CapturePosting(p)).value;
      WriteOutcome(cfg, posted, 0, FirstFee(), FeePosting(p, Fee(cfg.rate, p.Charged())));
    }
  }

  /** Two requests of one merchant are charged, and the first has finished. */
  lemma OneFinished(cfg: Config, initial: map<Id, MerchantBalance>, p: Payment, q: Payment) returns (s: System)
    requires cfg.deferredReference && p.captureMethod == Automatic && p.amount > 0 && q.amount > 0
    requires p.id != q.id && (p.key.None? || p.key != q.key)
    ensures Reached(cfg, initial, s)
    ensures 1 in s.requests && s.requests[1] == Approved(NewPayment(q))
    ensures q.id in s.db.payments && s.db.payments[q.id] == NewPayment(q)
    ensures var first := CapturedRow(NewPayment(p));
            PostCapture(cfg, [], first, first.Charged(), FirstCapture(), FirstFee()) == Ok(s.db.ledger)
    ensures |s.db.ledger| % 2 == 0
    ensures Unused(s.db.ledger, Fresh(SecondCapture())) && Unused(s.db.ledger, Fresh(SecondFee()))
  {
    var s2 := TwoCharged(cfg, initial, p, q);
    FirstPosts(cfg, CapturedRow(NewPayment(p)));
    s := Finishes(cfg, s2, 0, NewPayment(p), FirstCapture(), FirstFee());
    LeadsOn(cfg, Start(initial), s2, s);
  }

  lemma BlindSecond(cfg: Config, rows: seq<Entry>, first: Payment, second: Payment)
    requires PostCapture(cfg, [], first, first.Charged(), FirstCapture(), FirstFee()) == Ok(rows) && |rows| % 2 == 0
    requires PostCapture(cfg, rows, second, second.Charged(), SecondCapture(), SecondFee()).Ok?
    requires first.merchant == second.merchant && first.capturedAmount.Some?
    requires CaptureFee(cfg.rate, first.Charged()) < first.Charged()
    ensures !Exact(PostCapture(cfg, rows, second, second.Charged(), SecondCapture(), SecondFee()).value)
  {
    PostedShares(cfg, [], first, FirstCapture(), FirstFee(), MerchantPayable);
    BlindCapture(cfg, rows, second, SecondCapture(), SecondFee());
  }

  /** The other request of the merchant finishes, on a ledger it read before there was anything in it. */
  lemma SecondFinishes(cfg: Config, mid: System, first: Payment, q: Payment) returns (s: System)
    requires cfg.deferredReference && q.captureMethod == Automatic && q.amount > 0
    requires 1 in mid.requests && mid.requests[1] == Approved(NewPayment(q))
    requires q.id in mid.db.payments && mid.db.payments[q.id] == NewPayment(q)
    requires PostCapture(cfg, [], first, first.Charged(), FirstCapture(), FirstFee()) == Ok(mid.db.ledger)
    requires first.merchant == q.merchant && first.capturedAmount.Some?
    requires CaptureFee(cfg.rate, first.Charged()) < first.Charged() && |mid.db.ledger| % 2 == 0
    requires Unused(mid.db.ledger, Fresh(SecondCapture())) && Unused(mid.db.ledger, Fresh(SecondFee()))
    ensures LeadsTo(cfg, mid, s) && !Exact(s.db.ledger)
  {
    var second := CapturedRow(NewPayment(q));
    Posts(cfg, mid.db.ledger, second, second.amount, SecondCapture(), SecondFee(), {});
    s := Finishes(cfg, mid, 1, NewPayment(q), SecondCapture(), SecondFee());
    BlindSecond(cfg, mid.db.ledger, first, second);
  }

  /** Two customers pay one merchant at the same time: the second capture reads the ledger before the first
      commits, and the balance it stores is wrong. */
  lemma OverlapMisstates(cfg: Config, initial: map<Id, MerchantBalance>, p: Payment, q: Payment) returns (s: System)
    requires cfg.deferredReference && p.captureMethod == Automatic && q.captureMethod == Automatic
    requires p.merchant == q.merchant && p.id != q.id && (p.key.None? || p.key != q.key)
    requires p.amount > 0 && q.amount > 0 && CaptureFee(cfg.rate, p.amount) < p.amount
    ensures Reached(cfg, initial, s) && !Exact(s.db.ledger)
  {
    var mid := OneFinished(cfg, initial, p, q);
    s := SecondFinishes(cfg, mid, CapturedRow(NewPayment(p)), q);
    LeadsOn(cfg, Start(initial), mid, s);
  }

  lemma TwoCharged(cfg: Config, initial: map<Id, MerchantBalance>, p: Payment, q: Payment) returns (s: System)
    requires p.id != q.id && (p.key.None? || p.key != q.key) && p.amount > 0 && q.amount > 0
    ensures Reached(cfg, initial, s) && s.db.ledger == []
    ensures s.requests == map[0 := Approved(NewPayment(p)), 1 := Approved(NewPayment(q))]
    ensures s.db.payments == map[p.id := NewPayment(p), q.id := NewPayment(q)]
  {
    var s1 := Charges(cfg, Start(initial), 0, p);
    assert s1.requests == map[0 := Approved(NewPayment(p))];
    assert s1.db.payments == map[p.id := NewPayment(p)];
    s := Charges(cfg, s1, 1, q);
    LeadsOn(cfg, Start(initial), s1, s);
  }

  // ---------- what the hashes leave out ----------

  /** The same write for two payments of one amount, on ledgers with no row of their merchants. */
  lemma SameHashes(cfg: Config, p: Payment, q: Payment, stamp: Stamp)
    requires p.Charged() == q.Charged()
    requires WriteDoubleEntry(cfg, [], 0, stamp, CapturePosting(p)).Ok?
    requires WriteDoubleEntry(cfg, [], 0, stamp, CapturePosting(q)).Ok?
    ensures var one := WriteDoubleEntry(cfg, [], 0, stamp, CapturePosting(p)).value;
            var two := WriteDoubleEntry(cfg, [], 0, stamp, CapturePosting(q)).value;
            && |one| == |two| == 2 && one[0].hash == two[0].hash && one[1].hash == two[1].hash
  {
    WrittenRows(cfg, [], 0, stamp, CapturePosting(p));
    WrittenRows(cfg, [], 0, stamp, CapturePosting(q));
    assert PrevHashOf(Visible([], 0, stamp.seenByHash), p.merchant, stamp.tie)
        == PrevHashOf(Visible([], 0, stamp.seenByHash), q.merchant, stamp.tie);
  }

  /** The first two rows of a capture are its capture pair. */
  predicate PairFirst(cfg: Config, p: Payment, capture: Stamp, rows: seq<Entry>) {
    && WriteDoubleEntry(cfg, [], 0, capture, CapturePosting(p)).Ok? && |rows| >= 2
    && rows[..2] == WriteDoubleEntry(cfg, [], 0, capture, CapturePosting(p)).value
  }

  lemma FirstRows(cfg: Config, p: Payment, base: int, capture: Stamp, fee: Stamp)
    requires PostCapture(cfg, [], p, base, capture, fee).Ok?
    ensures PairFirst(cfg, p, capture, PostCapture(cfg, [], p, base, capture, fee).value)
  {
    WrittenRows(cfg, [], 0, capture, CapturePosting(p));
    if Fee(cfg.rate, base) > 0 {
      WrittenRows(cfg, WriteDoubleEntry(cfg, [], 0, capture, CapturePosting(p)).value, 0, fee,
        FeePosting(p, Fee(cfg.rate, base)));
    }
  }

  /** Every row of the pair is about this payment. */
  predicate About(rows: seq<Entry>, p: Payment) {
    && |rows| >= 2
    && forall k :: 0 <= k < 2 ==>
         rows[k].payment == p.id && rows[k].merchant == p.merchant && rows[k].currency == p.currency
  }

  lemma PairIsAbout(cfg: Config, p: Payment, capture: Stamp, rows: seq<Entry>)
    requires PairFirst(cfg, p, capture, rows)
    ensures About(rows, p)
  {
    WrittenRows(cfg, [], 0, capture, CapturePosting(p));
    assert rows[0] == rows[..2][0] && rows[1] == rows[..2][1];
  }

  /** A first capture under given ids and clock readings. */
  lemma CapturedUnder(cfg: Config, initial: map<Id, MerchantBalance>, p: Payment, capture: Stamp, fee: Stamp)
    returns (s: System)
    requires cfg.deferredReference && p.captureMethod == Automatic && p.amount > 0 && Apart(capture, fee)
    ensures Reached(cfg, initial, s) && PairFirst(cfg, CapturedRow(NewPayment(p)), capture, s.db.ledger)
  {
    var mid := OneCharged(cfg, initial, p);
    Posts(cfg, [], CapturedRow(NewPayment(p)), p.amount, capture, fee, {});
    FirstRows(cfg, CapturedRow(NewPayment(p)), p.amount, capture, fee);
    s := Finishes(cfg, mid, 0, NewPayment(p), capture, fee);
    LeadsOn(cfg, Start(initial), mid, s);
  }

  lemma PairsShareHashes(cfg: Config, p: Payment, q: Payment, capture: Stamp, one: seq<Entry>, two: seq<Entry>)
    requires PairFirst(cfg, p, capture, one) && PairFirst(cfg, q, capture, two)
    requires p.Charged() == q.Charged()
    ensures one[0].hash == two[0].hash && one[1].hash == two[1].hash
  {
    SameHashes(cfg, p, q, capture);
    assert one[0] == one[..2][0] && one[1] == one[..2][1] && two[0] == two[..2][0] && two[1] == two[..2][1];
  }

  /** Any two payments of one amount have reachable ledgers with equal hashes under any ids and clock readings:
      merchant, payment and currency are not covered. */
  lemma HashesLeaveOut(
    cfg: Config, initial: map<Id, MerchantBalance>, p: Payment, q: Payment, capture: Stamp, fee: Stamp)
    returns (s: System, u: System)
    requires cfg.deferredReference && p.captureMethod == Automatic && q.captureMethod == Automatic
    requires p.amount == q.amount > 0 && Apart(capture, fee)
    ensures Reached(cfg, initial, s) && Reached(cfg, initial, u)
    ensures About(s.db.ledger, p) && About(u.db.ledger, q)
    ensures s.db.ledger[0].hash == u.db.ledger[0].hash && s.db.ledger[1].hash == u.db.ledger[1].hash
  {
    s := CapturedUnder(cfg, initial, p, capture, fee);
    u := CapturedUnder(cfg, initial, q, capture, fee);
    PairIsAbout(cfg, CapturedRow(NewPayment(p)), capture, s.db.ledger);
    PairIsAbout(cfg, CapturedRow(NewPayment(q)), capture, u.db.ledger);
    PairsShareHashes(cfg, CapturedRow(NewPayment(p)), CapturedRow(NewPayment(q)), capture, s.db.ledger, u.db.ledger);
  }

  // ---------- refunded_amount against succeeded refunds ----------

  /** A refund is created. */
  lemma Begins(cfg: Config, s: System, req: Req, request: RefundRequest, stamp: Stamp) returns (u: System, r: Refund)
    requires req !in s.requests && CreateRefund(cfg, s.db, request, stamp).Ok?
    ensures LeadsTo(cfg, s, u) && r == CreateRefund(cfg, s.db, request, stamp).value.1
    ensures u.db == CreateRefund(cfg, s.db, request, stamp).value.0 && RefundEffect(cfg, s.db, u.db, r, stamp)
    ensures u.skipped == SkippedAfter(s.db, s.skipped, r) && u.requests == s.requests[req := RefundSent(r)]
  {
    RefundCommits(cfg, s.db, request, stamp);
    u, r := Next(cfg, s, RefundStart(req, request, stamp)), CreateRefund(cfg, s.db, request, stamp).value.1;
    LeadsToItself(cfg, s);
    StepLeads(cfg, s, s, RefundStart(req, request, stamp));
  }

  /** The acquirer answers. */
  lemma Answers(cfg: Config, s: System, req: Req, succeeded: bool) returns (u: System)
    requires req in s.requests && s.requests[req].RefundSent?
    ensures LeadsTo(cfg, s, u) && u.skipped == s.skipped && u.requests.Keys <= s.requests.Keys
    ensures u.db == UpdateRefundStatus(s.db, s.requests[req].refund.id, if succeeded then RefundSucceeded else RefundFailed)
  {
    u := Next(cfg, s, RefundVerdict(req, succeeded));
    LeadsToItself(cfg, s);
    StepLeads(cfg, s, s, RefundVerdict(req, succeeded));
  }

  lemma Refunds(cfg: Config, s: System, req: Req, request: RefundRequest, stamp: Stamp, succeeded: bool)
    returns (u: System, r: Refund)
    requires req !in s.requests && CreateRefund(cfg, s.db, request, stamp).Ok?
    ensures LeadsTo(cfg, s, u) && r == CreateRefund(cfg, s.db, request, stamp).value.1
    ensures RefundEffect(cfg, s.db, CreateRefund(cfg, s.db, request, stamp).value.0, r, stamp)
    ensures u.db == UpdateRefundStatus(CreateRefund(cfg, s.db, request, stamp).value.0, r.id,
                      if succeeded then RefundSucceeded else RefundFailed)
    ensures u.skipped == SkippedAfter(s.db, s.skipped, r)
    ensures u.requests.Keys <= s.requests.Keys + {req}
  {
    var mid;
    mid, r := Begins(cfg, s, req, request, stamp);
    u := Answers(cfg, mid, req, succeeded);
    LeadsOn(cfg, s, mid, u);
  }

  /** A charged payment with nothing else in the tables. */
  lemma OneCharged(cfg: Config, initial: map<Id, MerchantBalance>, p: Payment) returns (s: System)
    requires p.amount > 0
    ensures Reached(cfg, initial, s) && s.requests == map[0 := Approved(NewPayment(p))] && s.skipped == []
    ensures s.db.refunds == [] && s.db.ledger == [] && s.db.payments == map[p.id := NewPayment(p)]
  {
    s := Charges(cfg, Start(initial), 0, p);
  }

  /** The same payment captured. */
  lemma OneCapture(cfg: Config, initial: map<Id, MerchantBalance>, p: Payment) returns (s: System)
    requires cfg.deferredReference && p.captureMethod == Automatic && p.amount > 0
    ensures Reached(cfg, initial, s) && s.requests == map[] && s.db.refunds == [] && s.skipped == []
    ensures s.db.payments == map[p.id := CapturedRow(NewPayment(p))]
    ensures Unused(s.db.ledger, Fresh(SecondCapture())) && Unused(s.db.ledger, Fresh(SecondFee()))
  {
    var mid := OneCharged(cfg, initial, p);
    FirstPosts(cfg, CapturedRow(NewPayment(p)));
    s := Finishes(cfg, mid, 0, NewPayment(p), FirstCapture(), FirstFee());
    LeadsOn(cfg, Start(initial), mid, s);
  }

  /** The acquirer refuses a refund of the whole payment: refunded_amount keeps it, no refund succeeded. */
  lemma FailedRefundCounts(cfg: Config, initial: map<Id, MerchantBalance>, p: Payment) returns (s: System)
    requires cfg.deferredReference && p.captureMethod == Automatic && p.amount > 0
    ensures Reached(cfg, initial, s) && p.id in s.db.payments
    ensures s.db.payments[p.id].refundedAmount == p.amount && SumBy(s.db.refunds, SucceededRows(p.id)) == 0
    ensures s.skipped == []
  {
    var s1 := OneCapture(cfg, initial, p);
    var request := RefundRequest("r", p.id, p.merchant, None, None);
    assert "e" in Fresh(SecondCapture()) && "f" in Fresh(SecondCapture());
    RefundOutcome(cfg, s1.db, request, SecondCapture());
    var r;
    s, r := Refunds(cfg, s1, 1, request, SecondCapture(), false);
    LeadsOn(cfg, Start(initial), s1, s);
    assert s.db.refunds == [r.(status := RefundFailed)];
    SumZero(s.db.refunds, SucceededRows(p.id));
  }

  /** A first refund of one unit, with a key, has succeeded. */
  lemma RefundedOnce(cfg: Config, initial: map<Id, MerchantBalance>, p: Payment, key: string)
    returns (s: System, row: Refund)
    requires cfg.deferredReference && p.captureMethod == Automatic && p.amount >= 2
    ensures Reached(cfg, initial, s) && s.requests.Keys <= {1} && s.skipped == []
    ensures s.db.payments == map[p.id := CapturedRow(NewPayment(p)).(refundedAmount := 1)]
    ensures s.db.refunds == [row] && row.status == RefundSucceeded && row.amount == 1 && row.payment == p.id
    ensures row.merchant == p.merchant && row.key == Some(key) && row.id == "r"
    ensures Unused(s.db.ledger, Fresh(SecondFee()))
  {
    var s1 := OneCapture(cfg, initial, p);
    var request := RefundRequest("r", p.id, p.merchant, Some(1), Some(key));
    Writes(cfg, s1.db.ledger, |s1.db.ledger|, SecondCapture(),
      RefundPosting(p.id, p.merchant, p.currency, 1), Fresh(SecondFee()));
    assert "e" in Fresh(SecondCapture()) && "f" in Fresh(SecondCapture());
    RefundOutcome(cfg, s1.db, request, SecondCapture());
    var first;
    s, first := Refunds(cfg, s1, 1, request, SecondCapture(), true);
    row := first.(status := RefundSucceeded);
    LeadsOn(cfg, Start(initial), s1, s);
  }

  lemma SecondAccepted(cfg: Config, t: Tables, p: Payment, key: string, row: Refund)
    requires cfg.deferredReference && p.amount >= 2 && Unused(t.ledger, Fresh(SecondFee()))
    requires t.payments == map[p.id := CapturedRow(NewPayment(p)).(refundedAmount := 1)]
    requires t.refunds == [row] && row.merchant == p.merchant && row.key == Some(key)
    ensures var request := RefundRequest("q", p.id, p.merchant, Some(1), Some(key));
            && CreateRefund(cfg, t, request, SecondFee()).Ok?
            && RefundKeyTaken(t, CreateRefund(cfg, t, request, SecondFee()).value.1)
            && CreateRefund(cfg, t, request, SecondFee()).value.1 == NewRefund(request, t.payments[p.id])
  {
    assert t.refunds[0].key == Some(key);
    assert "g" in Fresh(SecondFee()) && "h" in Fresh(SecondFee());
    RefundOutcome(cfg, t, RefundRequest("q", p.id, p.merchant, Some(1), Some(key)), SecondFee());
  }

  /** Two refunds of one unit with one key: both are paid and both succeed, but only one has a row. */
  lemma ReusedKeyCounts(cfg: Config, initial: map<Id, MerchantBalance>, p: Payment, key: string) returns (s: System)
    requires cfg.deferredReference && p.captureMethod == Automatic && p.amount >= 2
    ensures Reached(cfg, initial, s) && p.id in s.db.payments
    ensures s.db.payments[p.id].refundedAmount == 2 && SumBy(s.db.refunds, SucceededRows(p.id)) == 1
    ensures forall i :: 0 <= i < |s.db.refunds| ==> s.db.refunds[i].status == RefundSucceeded
  {
    var mid, row := RefundedOnce(cfg, initial, p, key);
    SecondAccepted(cfg, mid.db, p, key, row);
    var second;
    s, second := Refunds(cfg, mid, 2, RefundRequest("q", p.id, p.merchant, Some(1), Some(key)), SecondFee(), true);
    LeadsOn(cfg, Start(initial), mid, s);
    assert s.db.refunds == [row];
    SumSnoc([], row, SucceededRows(p.id));
    assert [] + [row] == [row];
  }

  /** The acquirer confirms a refund and the request vanishes before it announces it: nobody ever will. */
  lemma CrashLosesNotice(cfg: Config, initial: map<Id, MerchantBalance>, p: Payment) returns (s: System)
    requires cfg.deferredReference && p.captureMethod == Automatic && p.amount > 0
    ensures Reached(cfg, initial, s) && Lost(s, "r") && s.skipped == []
  {
    var s1 := OneCapture(cfg, initial, p);
    var request := RefundRequest("r", p.id, p.merchant, None, None);
    assert "e" in Fresh(SecondCapture()) && "f" in Fresh(SecondCapture());
    RefundOutcome(cfg, s1.db, request, SecondCapture());
    var mid, r := Begins(cfg, s1, 1, request, SecondCapture());
    LeadsOn(cfg, Start(initial), s1, mid);
    s := ConfirmedThenCrash(cfg, initial, mid, 1, r);
  }

  lemma ConfirmedThenCrash(cfg: Config, initial: map<Id, MerchantBalance>, mid: System, req: Req, r: Refund)
    returns (s: System)
    requires Reached(cfg, initial, mid) && mid.skipped == [] && req in mid.requests && mid.requests[req] == RefundSent(r)
    ensures Reached(cfg, initial, s) && Lost(s, r.id) && s.skipped == []
  {
    var done := Confirmed(cfg, mid, req, r);
    LeadsOn(cfg, Start(initial), mid, done);
    CrashLoses(cfg, initial, done, req);
    s := Steps(cfg, done, Crash(req));
    LeadsOn(cfg, Start(initial), done, s);
  }

  lemma Confirmed(cfg: Config, mid: System, req: Req, r: Refund) returns (done: System)
    requires req in mid.requests && mid.requests[req] == RefundSent(r)
    ensures LeadsTo(cfg, mid, done) && done.skipped == mid.skipped
    ensures req in done.requests && done.requests[req] == RefundDone(r)
  {
    done := Steps(cfg, mid, RefundVerdict(req, true));
  }

  // ---------- two captures of one authorization ----------

  /** A step that is a transition from one known state to another. */
  lemma Steps(cfg: Config, s: System, a: Action) returns (u: System)
    ensures u == Next(cfg, s, a) && LeadsTo(cfg, s, u)
  {
    u := Next(cfg, s, a);
    LeadsToItself(cfg, s);
    StepLeads(cfg, s, s, a);
  }

  lemma Authorizes(cfg: Config, initial: map<Id, MerchantBalance>, p: Payment) returns (s: System)
    requires p.captureMethod == Manual && p.amount > 0
    ensures Reached(cfg, initial, s) && s.requests == map[] && s.db.ledger == []
    ensures s.db.payments == map[p.id := NewPayment(p).(status := Authorized)]
  {
    var charged := OneCharged(cfg, initial, p);
    FinishOutcome(cfg, charged.db, NewPayment(p), FirstCapture(), FirstFee());
    s := Steps(cfg, charged, CreateFinish(0, FirstCapture(), FirstFee()));
    LeadsOn(cfg, Start(initial), charged, s);
  }

  /** A capture request up to the acquirer's consent. */
  lemma Grants(cfg: Config, s: System, req: Req, id: Id, merchant: Id, amount: Option<int>) returns (u: System)
    requires req !in s.requests && LockPayment(s.db, id, merchant).Ok? && s.db.payments[id].status == Authorized
    ensures LeadsTo(cfg, s, u) && u.db == s.db && u.requests == s.requests[req := CaptureGranted(id, merchant, amount)]
  {
    var asked := Steps(cfg, s, CaptureStart(req, id, merchant, amount));
    u := Steps(cfg, asked, CaptureVerdict(req, true));
    LeadsOn(cfg, s, asked, u);
  }

  /** The state in which both requests have the acquirer's consent. */
  predicate Racing(s: System, p: Payment, x: int, y: int) {
    && s.db.ledger == [] && s.db.payments == map[p.id := NewPayment(p).(status := Authorized)]
    && s.requests == map[1 := CaptureGranted(p.id, p.merchant, Some(x)), 2 := CaptureGranted(p.id, p.merchant, Some(y))]
  }

  lemma BothGranted(cfg: Config, initial: map<Id, MerchantBalance>, p: Payment, x: int, y: int) returns (s: System)
    requires p.captureMethod == Manual && p.amount > 0
    ensures Reached(cfg, initial, s) && Racing(s, p, x, y)
  {
    var s0 := Authorizes(cfg, initial, p);
    var s1 := Grants(cfg, s0, 1, p.id, p.merchant, Some(x));
    s := Grants(cfg, s1, 2, p.id, p.merchant, Some(y));
    LeadsOn(cfg, Start(initial), s0, s1);
    LeadsOn(cfg, Start(initial), s1, s);
  }

  lemma FirstCommits(cfg: Config, t: Tables, p: Payment, x: int)
    requires cfg.deferredReference && x > 0 && t.ledger == []
    requires t.payments == map[p.id := NewPayment(p).(status := Authorized)]
    ensures var result := CapturePayment(cfg, t, p.id, p.merchant, Some(x), FirstCapture(), FirstFee());
            && result.Ok? && result.value.1 == NewPayment(p).(status := Captured, capturedAmount := Some(x))
            && result.value.0.payments == t.payments[p.id := result.value.1]
  {
    assert FreshIds([], FirstCapture()) && FreshIds([], FirstFee());
    assert Postable(cfg, t.ledger, x, FirstCapture(), FirstFee());
    CaptureOutcome(cfg, t, p.id, p.merchant, Some(x), FirstCapture(), FirstFee());
  }

  lemma CaptureCommitted(cfg: Config, s: System, req: Req, capture: Stamp, fee: Stamp)
    requires req in s.requests && s.requests[req].CaptureGranted?
    ensures var pc := s.requests[req];
            var result := CapturePayment(cfg, s.db, pc.id, pc.merchant, pc.amount, capture, fee);
            Next(cfg, s, CaptureFinish(req, capture, fee)) == Drop(if result.Ok? then s.(db := result.value.0) else s, req)
  {
  }

  lemma FirstWins(cfg: Config, s: System, p: Payment, x: int, y: int) returns (u: System)
    requires cfg.deferredReference && x > 0 && Racing(s, p, x, y)
    ensures u == Next(cfg, s, CaptureFinish(1, FirstCapture(), FirstFee()))
    ensures u.requests == s.requests - {1} && p.id in u.db.payments && u.db.payments[p.id].id == p.id
    ensures u.db.payments[p.id].capturedAmount == Some(x) && u.db.payments[p.id].status == Captured
  {
    FirstCommits(cfg, s.db, p, x);
    CaptureCommitted(cfg, s, 1, FirstCapture(), FirstFee());
    u := Next(cfg, s, CaptureFinish(1, FirstCapture(), FirstFee()));
  }

  /** Two requests capture one authorized payment: both ask the acquirer, because the check before it reads
      without a lock, and the one that commits second is refused. The amount captured is the one it asked for,
      however much was authorized. */
  lemma CaptureRace(cfg: Config, initial: map<Id, MerchantBalance>, p: Payment, x: int, y: int)
    returns (s: System, u: System)
    requires cfg.deferredReference && p.captureMethod == Manual && p.amount > 0 && x > 0
    ensures Reached(cfg, initial, s) && {1, 2} <= s.requests.Keys
    ensures s.requests[1] == CaptureGranted(p.id, p.merchant, Some(x))
    ensures s.requests[2] == CaptureGranted(p.id, p.merchant, Some(y))
    ensures u == Next(cfg, s, CaptureFinish(1, FirstCapture(), FirstFee()))
    ensures p.id in u.db.payments && u.db.payments[p.id].capturedAmount == Some(x)
    ensures forall capture, fee :: Next(cfg, u, CaptureFinish(2, capture, fee)) == Drop(u, 2)
  {
    s := BothGranted(cfg, initial, p, x, y);
    u := FirstWins(cfg, s, p, x, y);
    forall capture, fee ensures Next(cfg, u, CaptureFinish(2, capture, fee)) == Drop(u, 2) {
      CaptureOutcome(cfg, u.db, p.id, p.merchant, Some(y), capture, fee);
      CaptureCommitted(cfg, u, 2, capture, fee);
    }
  }
}
