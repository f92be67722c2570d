/** Every transaction of the protocol keeps the table invariant. */
module Preservation {
  import opened Models
  import opened Sums
  import opened Fees
  import opened Ledger
  import opened Schema
  import opened Transactions
  import opened Invariant

  // ---------- insert ----------

  lemma InsertKeeps(cfg: Config, t: Tables, skipped: seq<Refund>, initial: map<Id, MerchantBalance>, p: Payment)
    requires TablesOk(cfg, t, skipped, initial)
    requires p.status == Created && p.capturedAmount.None? && p.refundedAmount == 0 && p.settledAt.None?
    requires InsertPaymentIdempotent(t, p).Inserted?
    ensures var u := Publish(InsertPaymentIdempotent(t, p).tables, PaymentEvent(PaymentCreated, p.id, PaymentsTopic));
            TablesOk(cfg, u, skipped, initial)
  {
    var u := Publish(InsertPaymentIdempotent(t, p).tables, PaymentEvent(PaymentCreated, p.id, PaymentsTopic));
    InsertedRow(cfg.rate, t, u, skipped, p);
    InsertedKeys(t, u, p);
    OnePaymentStep(cfg, t, u, skipped, skipped, initial, p.id);
  }

  lemma InsertedKeys(t: Tables, u: Tables, p: Payment)
    requires UniqueKeys(t.payments)
    requires u.payments == t.payments[p.id := p]
    requires forall id :: id in t.payments ==> !SameKey(t.payments[id], p)
    ensures UniqueKeys(u.payments)
  {
  }

  lemma InsertedRow(rate: Rate, t: Tables, u: Tables, skipped: seq<Refund>, p: Payment)
    requires PaymentOk(rate, t, skipped, p.id) && p.id !in t.payments
    requires p.amount > 0 && p.status == Created
    requires p.capturedAmount.None? && p.refundedAmount == 0 && p.settledAt.None?
    requires u == Publish(t.(payments := t.payments[p.id := p]), PaymentEvent(PaymentCreated, p.id, PaymentsTopic))
    ensures KnownOk(rate, u, skipped, p.id)
  {
  }

  // ---------- status writes ----------

  /** The new row after a status write that moves no money. */
  predicate StatusWrite(t: Tables, id: Id, status: PaymentStatus)
    requires id in t.payments
  {
    && status != Captured && status != Settled
    && (t.payments[id].capturedAmount.Some? ==> status == Disputed)
    && (t.payments[id].captureMethod == Automatic ==> status != Authorized)
  }

  lemma StatusKeeps(
    cfg: Config, t: Tables, u: Tables, skipped: seq<Refund>, initial: map<Id, MerchantBalance>, id: Id,
    status: PaymentStatus)
    requires TablesOk(cfg, t, skipped, initial)
    requires id in t.payments && StatusWrite(t, id, status)
    requires u == t.(payments := t.payments[id := t.payments[id].(status := status)],
                     disputes := u.disputes, outbox := u.outbox)
    requires t.outbox < u.outbox
    requires forall i :: |t.outbox| <= i < |u.outbox| ==>
               u.outbox[i].payment == Some(id) && StatusOf(u.outbox[i].kind) == Some(status)
    ensures TablesOk(cfg, u, skipped, initial)
  {
    StatusRow(cfg.rate, t, u, skipped, id, status);
    KeysKept(t, u, id);
    OnePaymentStep(cfg, t, u, skipped, skipped, initial, id);
  }

  lemma StatusRow(rate: Rate, t: Tables, u: Tables, skipped: seq<Refund>, id: Id, status: PaymentStatus)
    requires PaymentOk(rate, t, skipped, id)
    requires id in t.payments && StatusWrite(t, id, status)
    requires u == t.(payments := t.payments[id := t.payments[id].(status := status)],
                     disputes := u.disputes, outbox := u.outbox)
    requires t.outbox < u.outbox
    requires forall i :: |t.outbox| <= i < |u.outbox| ==>
               u.outbox[i].payment == Some(id) && StatusOf(u.outbox[i].kind) == Some(status)
    ensures KnownOk(rate, u, skipped, id)
  {
    OutboxFrame(t.outbox, u.outbox, id, t.payments[id].capturedAmount.Some?);
    assert Replay(u.outbox, id) == Some(status);
  }

  lemma FailKeeps(cfg: Config, t: Tables, skipped: seq<Refund>, initial: map<Id, MerchantBalance>, id: Id)
    requires TablesOk(cfg, t, skipped, initial)
    requires id in t.payments && t.payments[id].capturedAmount.None?
    ensures TablesOk(cfg, FailPayment(t, id), skipped, initial)
  {
    StatusKeeps(cfg, t, FailPayment(t, id), skipped, initial, id, Failed);
  }

  lemma CancelKeeps(cfg: Config, t: Tables, skipped: seq<Refund>, initial: map<Id, MerchantBalance>, id: Id, merchant: Id)
    requires TablesOk(cfg, t, skipped, initial)
    requires CancelPayment(t, id, merchant).Ok?
    ensures TablesOk(cfg, CancelPayment(t, id, merchant).value.0, skipped, initial)
  {
    assert PaymentOk(cfg.rate, t, skipped, id);
    StatusKeeps(cfg, t, CancelPayment(t, id, merchant).value.0, skipped, initial, id, Cancelled);
  }

  lemma DisputeKeeps(cfg: Config, t: Tables, skipped: seq<Refund>, initial: map<Id, MerchantBalance>, d: Dispute)
    requires TablesOk(cfg, t, skipped, initial)
    requires CreateDispute(t, d).Ok?
    ensures TablesOk(cfg, CreateDispute(t, d).value, skipped, initial)
  {
    StatusKeeps(cfg, t, CreateDispute(t, d).value, skipped, initial, d.payment, Disputed);
  }

  // ---------- charge and capture ----------

  lemma FinishIsCommit(cfg: Config, t: Tables, request: Payment, capture: Stamp, fee: Stamp)
    requires FinishCharge(cfg, t, request, capture, fee).Ok?
    ensures LockPayment(t, request.id, request.merchant).Ok?
    ensures var (u, row) := FinishCharge(cfg, t, request, capture, fee).value;
            var walked := Walk(t.payments[request.id].status, ChargePath(request.captureMethod));
            && walked.Ok? && row == ChargedRow(t.payments[request.id], request, walked.value)
            && CommitCharge(cfg, t, row, row.amount, capture, fee) == Ok(u)
  {
  }

  lemma CaptureIsCommit(
    cfg: Config, t: Tables, id: Id, merchant: Id, amount: Option<int>, capture: Stamp, fee: Stamp)
    requires CapturePayment(cfg, t, id, merchant, amount, capture, fee).Ok?
    ensures LockPayment(t, id, merchant).Ok?
    ensures var (u, row) := CapturePayment(cfg, t, id, merchant, amount, capture, fee).value;
            && t.payments[id].status == Authorized
            && row == t.payments[id].(status := Captured, capturedAmount := Some(amount.GetOr(t.payments[id].amount)))
            && CommitCharge(cfg, t, row, row.Charged(), capture, fee) == Ok(u)
  {
    OneStepWalk(t.payments[id].status);
  }

  lemma OneStepWalk(from: PaymentStatus)
    requires Walk(from, [Captured]).Ok?
    ensures from == Authorized && Walk(from, [Captured]) == Ok(Captured)
  {
    assert [Captured][1..] == [];
  }

  /** A charge writes two columns of one row. */
  lemma ChargedRows(cfg: Config, t: Tables, row: Payment, base: int, capture: Stamp, fee: Stamp)
    requires CommitCharge(cfg, t, row, base, capture, fee).Ok? && row.id in t.payments
    ensures CommitCharge(cfg, t, row, base, capture, fee).value.payments
         == t.payments[row.id := t.payments[row.id].(status := row.status, capturedAmount := row.capturedAmount)]
  {
  }

  lemma ChargeAppends(cfg: Config, t: Tables, row: Payment, base: int, capture: Stamp, fee: Stamp)
    requires CommitCharge(cfg, t, row, base, capture, fee).Ok?
    ensures t.ledger <= CommitCharge(cfg, t, row, base, capture, fee).value.ledger
  {
    if row.status == Captured {
      WrittenRows(cfg, t.ledger, |t.ledger|, capture, CapturePosting(row));
      var posted := WriteDoubleEntry(cfg, t.ledger, |t.ledger|, capture, CapturePosting(row)).value;
      if Fee(cfg.rate, base) > 0 {
        WrittenRows(cfg, posted, |t.ledger|, fee, FeePosting(row, Fee(cfg.rate, base)));
      }
    }
  }

  // ---------- capture ----------

  /** The share each account receives from one write. */
  function Moves(p: Posting, account: Account): int {
    if account == p.credit then p.amount else if account == p.debit then -p.amount else 0
  }

  lemma WrittenBalance(cfg: Config, rows: seq<Entry>, own: nat, stamp: Stamp, p: Posting, account: Account)
    requires own <= |rows| && p.debit != p.credit
    requires WriteDoubleEntry(cfg, rows, own, stamp, p).Ok?
    ensures Balance(WriteDoubleEntry(cfg, rows, own, stamp, p).value, p.merchant, account)
         == Balance(rows, p.merchant, account) + Moves(p, account)
  {
    WrittenSum(cfg, rows, own, stamp, p, OnAccount(p.merchant, account));
  }

  /** What a posting adds to the four sums of its payment. */
  predicate SumsGrow(rows: seq<Entry>, after: seq<Entry>, p: Posting) {
    var id := p.payment;
    var out, back := if p.debit == GatewayFloat then p.amount else 0, if p.credit == GatewayFloat then p.amount else 0;
    && SumBy(after, CapturePairs(id)) == SumBy(rows, CapturePairs(id)) + (if p.debit == GatewayFloat then 1 else 0)
    && SumBy(after, CapturedIn(id)) == SumBy(rows, CapturedIn(id)) + out
    && SumBy(after, RefundedIn(id)) == SumBy(rows, RefundedIn(id)) + back
    && SumBy(after, FeesIn(id)) == SumBy(rows, FeesIn(id)) + (if p.credit == FeeIncome then p.amount else 0)
  }

  lemma WrittenFacts(cfg: Config, rows: seq<Entry>, own: nat, stamp: Stamp, p: Posting)
    requires own <= |rows| && p.debit != p.credit
    requires WriteDoubleEntry(cfg, rows, own, stamp, p).Ok?
    ensures SumsGrow(rows, WriteDoubleEntry(cfg, rows, own, stamp, p).value, p)
  {
    WrittenSum(cfg, rows, own, stamp, p, CapturePairs(p.payment));
    WrittenSum(cfg, rows, own, stamp, p, CapturedIn(p.payment));
    WrittenSum(cfg, rows, own, stamp, p, RefundedIn(p.payment));
    WrittenSum(cfg, rows, own, stamp, p, FeesIn(p.payment));
  }

  /** The ledger after a capture transaction, as the protocol invariant sees it. */
  lemma PostedCapture(cfg: Config, rows: seq<Entry>, p: Payment, capture: Stamp, fee: Stamp)
    requires LedgerOk(cfg, rows) && LedgerAgrees(cfg.rate, rows, p.id, None, 0)
    requires p.capturedAmount.Some?
    requires PostCapture(cfg, rows, p, p.Charged(), capture, fee).Ok?
    ensures var after := PostCapture(cfg, rows, p, p.Charged(), capture, fee).value;
            && p.Charged() > 0
            && LedgerOk(cfg, after) && rows <= after
            && LedgerAgrees(cfg.rate, after, p.id, p.capturedAmount, 0)
            && (forall i :: |rows| <= i < |after| ==> after[i].payment == p.id && after[i].merchant == p.merchant)
  {
    var posted := WriteDoubleEntry(cfg, rows, |rows|, capture, CapturePosting(p)).value;
    PostedPair(cfg, rows, |rows|, capture, CapturePosting(p));
    var amount := Fee(cfg.rate, p.Charged());
    if amount > 0 {
      PostedPair(cfg, posted, |rows|, fee, FeePosting(p, amount));
    }
  }

  /** What a capture transaction moves on each account. */
  lemma PostedShares(cfg: Config, rows: seq<Entry>, p: Payment, capture: Stamp, fee: Stamp, account: Account)
    requires p.capturedAmount.Some? && PostCapture(cfg, rows, p, p.Charged(), capture, fee).Ok?
    ensures var after := PostCapture(cfg, rows, p, p.Charged(), capture, fee).value;
            Balance(after, p.merchant, account)
            == Balance(rows, p.merchant, account) + Share(cfg.rate, p.(refundedAmount := 0), account)
  {
    var posted := WriteDoubleEntry(cfg, rows, |rows|, capture, CapturePosting(p)).value;
    WrittenBalance(cfg, rows, |rows|, capture, CapturePosting(p), account);
    var amount := Fee(cfg.rate, p.Charged());
    if amount > 0 {
      WrittenBalance(cfg, posted, |rows|, fee, FeePosting(p, amount), account);
    }
  }

  /** One write, as the protocol invariant sees it. */
  lemma PostedPair(cfg: Config, rows: seq<Entry>, own: nat, stamp: Stamp, p: Posting)
    requires own <= |rows| && LedgerOk(cfg, rows) && p.debit != p.credit
    requires WriteDoubleEntry(cfg, rows, own, stamp, p).Ok?
    ensures var after := WriteDoubleEntry(cfg, rows, own, stamp, p).value;
            && LedgerOk(cfg, after) && rows <= after && SumsGrow(rows, after, p)
            && (forall i :: |rows| <= i < |after| ==> after[i].payment == p.payment && after[i].merchant == p.merchant)
            && (forall account :: Balance(after, p.merchant, account) == Balance(rows, p.merchant, account) + Moves(p, account))
  {
    var after := WriteDoubleEntry(cfg, rows, own, stamp, p).value;
    WriteKeepsLedgerOk(cfg, rows, own, stamp, p);
    WrittenFacts(cfg, rows, own, stamp, p);
    WrittenRows(cfg, rows, own, stamp, p);
    forall account
      ensures Balance(after, p.merchant, account) == Balance(rows, p.merchant, account) + Moves(p, account)
    {
      WrittenBalance(cfg, rows, own, stamp, p, account);
    }
  }

  lemma AnnouncedTwice(log: seq<Event>, id: Id)
    requires OutboxAgrees(log, id, false)
    ensures var longer := log + [PaymentEvent(PaymentCaptured, id, PaymentsTopic)]
                              + [PaymentEvent(PaymentCaptured, id, WebhooksTopic)];
            OutboxAgrees(longer, id, true) && Replay(longer, id) == Some(Captured)
  {
  }

  /** The state both capturing transactions commit. */
  function CapturedTables(t: Tables, row: Payment, rows: seq<Entry>): Tables {
    PublishBoth(UpdatePaymentAfterCharge(t, row).(ledger := rows), PaymentCaptured, row.id)
  }

  lemma CapturedKeeps(
    cfg: Config, t: Tables, skipped: seq<Refund>, initial: map<Id, MerchantBalance>, row: Payment,
    capture: Stamp, fee: Stamp)
    requires TablesOk(cfg, t, skipped, initial)
    requires Captures(cfg, t, row, capture, fee)
    ensures TablesOk(cfg, CapturedTables(t, row, PostCapture(cfg, t.ledger, row, row.Charged(), capture, fee).value),
              skipped, initial)
  {
    var u := CapturedTables(t, row, PostCapture(cfg, t.ledger, row, row.Charged(), capture, fee).value);
    assert PaymentOk(cfg.rate, t, skipped, row.id);
    CapturedStep(cfg, t, u, skipped, row, capture, fee);
    forall account
      ensures Balance(u.ledger, row.merchant, account)
           == Balance(t.ledger, row.merchant, account) + ShareDelta(cfg.rate, t, u, row.id, account)
    {
      CapturedShares(cfg, t, u, row, capture, fee, account);
    }
    KeysKept(t, u, row.id);
    OnePaymentStep(cfg, t, u, skipped, skipped, initial, row.id);
  }

  /** The row and the rows a capturing transaction writes. */
  predicate Captures(cfg: Config, t: Tables, row: Payment, capture: Stamp, fee: Stamp) {
    && row.id in t.payments && t.payments[row.id].capturedAmount.None?
    && row == t.payments[row.id].(status := Captured, capturedAmount := row.capturedAmount)
    && row.capturedAmount.Some?
    && (row.captureMethod == Automatic ==> row.capturedAmount.value == row.amount)
    && PostCapture(cfg, t.ledger, row, row.Charged(), capture, fee).Ok?
  }

  lemma CapturedStep(
    cfg: Config, t: Tables, u: Tables, skipped: seq<Refund>, row: Payment, capture: Stamp, fee: Stamp)
    requires LedgerOk(cfg, t.ledger) && PaymentOk(cfg.rate, t, skipped, row.id)
    requires Captures(cfg, t, row, capture, fee)
    requires u == CapturedTables(t, row, PostCapture(cfg, t.ledger, row, row.Charged(), capture, fee).value)
    ensures OnlyPayment(t, u, skipped, skipped, row.id)
    ensures LedgerOk(cfg, u.ledger) && KnownOk(cfg.rate, u, skipped, row.id)
  {
    PostedCapture(cfg, t.ledger, row, capture, fee);
    CapturedRow(cfg.rate, t, skipped, row, u.ledger);
    CapturedOnly(t, skipped, row, u.ledger);
  }

  lemma CapturedOnly(t: Tables, skipped: seq<Refund>, row: Payment, rows: seq<Entry>)
    requires row.id in t.payments && t.payments[row.id].merchant == row.merchant && t.ledger <= rows
    requires forall i :: |t.ledger| <= i < |rows| ==> rows[i].payment == row.id && rows[i].merchant == row.merchant
    ensures OnlyPayment(t, CapturedTables(t, row, rows), skipped, skipped, row.id)
  {
  }

  lemma CapturedShares(cfg: Config, t: Tables, u: Tables, row: Payment, capture: Stamp, fee: Stamp, account: Account)
    requires Captures(cfg, t, row, capture, fee) && RowOk(t.payments[row.id])
    requires u == CapturedTables(t, row, PostCapture(cfg, t.ledger, row, row.Charged(), capture, fee).value)
    ensures Balance(u.ledger, row.merchant, account)
         == Balance(t.ledger, row.merchant, account) + ShareDelta(cfg.rate, t, u, row.id, account)
  {
    PostedShares(cfg, t.ledger, row, capture, fee, account);
  }

  lemma CapturedRow(rate: Rate, t: Tables, skipped: seq<Refund>, row: Payment, rows: seq<Entry>)
    requires PaymentOk(rate, t, skipped, row.id)
    requires row.id in t.payments && t.payments[row.id].capturedAmount.None?
    requires row == t.payments[row.id].(status := Captured, capturedAmount := row.capturedAmount)
    requires row.capturedAmount.Some? && row.Charged() > 0
    requires row.captureMethod == Automatic ==> row.capturedAmount.value == row.amount
    requires LedgerAgrees(rate, rows, row.id, row.capturedAmount, 0)
    ensures KnownOk(rate, CapturedTables(t, row, rows), skipped, row.id)
  {
    AnnouncedTwice(t.outbox, row.id);
  }

  lemma FinishKeeps(
    cfg: Config, t: Tables, skipped: seq<Refund>, initial: map<Id, MerchantBalance>, request: Payment,
    capture: Stamp, fee: Stamp)
    requires TablesOk(cfg, t, skipped, initial)
    requires request.id in t.payments && t.payments[request.id].capturedAmount.None?
    requires t.payments[request.id].amount == request.amount
    requires t.payments[request.id].captureMethod == request.captureMethod
    requires FinishCharge(cfg, t, request, capture, fee).Ok?
    ensures TablesOk(cfg, FinishCharge(cfg, t, request, capture, fee).value.0, skipped, initial)
  {
    var (u, row) := FinishCharge(cfg, t, request, capture, fee).value;
    assert PaymentOk(cfg.rate, t, skipped, request.id);
    FinishCommits(cfg, t, request, capture, fee);
    if row.status == Captured {
      CapturedKeeps(cfg, t, skipped, initial, row, capture, fee);
    } else {
      StatusKeeps(cfg, t, u, skipped, initial, row.id, Authorized);
    }
  }

  lemma FinishCommits(cfg: Config, t: Tables, request: Payment, capture: Stamp, fee: Stamp)
    requires request.id in t.payments && t.payments[request.id].capturedAmount.None?
    requires t.payments[request.id].id == request.id && t.payments[request.id].amount == request.amount
    requires t.payments[request.id].captureMethod == request.captureMethod
    requires FinishCharge(cfg, t, request, capture, fee).Ok?
    ensures var (u, row) := FinishCharge(cfg, t, request, capture, fee).value;
            && row.id == request.id
            && if row.status == Captured
               then && Captures(cfg, t, row, capture, fee)
                    && u == CapturedTables(t, row, PostCapture(cfg, t.ledger, row, row.Charged(), capture, fee).value)
               else && request.captureMethod != Automatic
                    && u == PublishBoth(t.(payments := t.payments[row.id := t.payments[row.id].(status := Authorized)]),
                                        PaymentAuthorized, row.id)
  {
    FinishIsCommit(cfg, t, request, capture, fee);
    WalkEnds(t.payments[request.id].status, ChargePath(request.captureMethod));
  }

  lemma {:induction false} WalkEnds(from: PaymentStatus, path: seq<PaymentStatus>)
    requires path != [] && Walk(from, path).Ok?
    ensures Walk(from, path).value == path[|path| - 1]
    decreases |path|
  {
    if |path| > 1 {
      WalkEnds(path[0], path[1..]);
    }
  }

  lemma CaptureKeeps(
    cfg: Config, t: Tables, skipped: seq<Refund>, initial: map<Id, MerchantBalance>, id: Id, merchant: Id,
    amount: Option<int>, capture: Stamp, fee: Stamp)
    requires TablesOk(cfg, t, skipped, initial)
    requires CapturePayment(cfg, t, id, merchant, amount, capture, fee).Ok?
    ensures TablesOk(cfg, CapturePayment(cfg, t, id, merchant, amount, capture, fee).value.0, skipped, initial)
  {
    assert PaymentOk(cfg.rate, t, skipped, id);
    CaptureCommits(cfg, t, id, merchant, amount, capture, fee);
    CapturedKeeps(cfg, t, skipped, initial, CapturePayment(cfg, t, id, merchant, amount, capture, fee).value.1, capture, fee);
  }

  lemma CaptureCommits(
    cfg: Config, t: Tables, id: Id, merchant: Id, amount: Option<int>, capture: Stamp, fee: Stamp)
    requires CapturePayment(cfg, t, id, merchant, amount, capture, fee).Ok?
    requires id in t.payments ==> t.payments[id].id == id && RowOk(t.payments[id])
    ensures var (u, row) := CapturePayment(cfg, t, id, merchant, amount, capture, fee).value;
            && row.id == id && id in t.payments && t.payments[id].capturedAmount.None?
            && row == t.payments[id].(status := Captured, capturedAmount := row.capturedAmount)
            && row.capturedAmount.Some? && row.captureMethod != Automatic
            && PostCapture(cfg, t.ledger, row, row.Charged(), capture, fee).Ok?
            && u == CapturedTables(t, row, PostCapture(cfg, t.ledger, row, row.Charged(), capture, fee).value)
  {
    CaptureIsCommit(cfg, t, id, merchant, amount, capture, fee);
  }

  // ---------- refund ----------

  /** Refunds whose insert was skipped for a taken key, after one more refund. */
  function SkippedAfter(t: Tables, skipped: seq<Refund>, r: Refund): seq<Refund> {
    if RefundKeyTaken(t, r) then skipped + [r] else skipped
  }

  lemma RefundKeeps(
    cfg: Config, t: Tables, skipped: seq<Refund>, initial: map<Id, MerchantBalance>, request: RefundRequest, stamp: Stamp)
    requires TablesOk(cfg, t, skipped, initial)
    requires CreateRefund(cfg, t, request, stamp).Ok?
    ensures var (u, r) := CreateRefund(cfg, t, request, stamp).value;
            TablesOk(cfg, u, SkippedAfter(t, skipped, r), initial)
  {
    var (u, r) := CreateRefund(cfg, t, request, stamp).value;
    RefundCommits(cfg, t, request, stamp);
    assert PaymentOk(cfg.rate, t, skipped, r.payment);
    RefundStep(cfg, t, u, skipped, SkippedAfter(t, skipped, r), r, stamp);
    KeysKept(t, u, r.payment);
    OnePaymentStep(cfg, t, u, skipped, SkippedAfter(t, skipped, r), initial, r.payment);
  }

  /** What a committed refund did: the payment's counter, a refund row unless the key was taken, a
      ledger pair and an event. */
  predicate RefundEffect(cfg: Config, t: Tables, u: Tables, r: Refund, stamp: Stamp) {
    && r.payment in t.payments
    && t.payments[r.payment].merchant == r.merchant && t.payments[r.payment].currency == r.currency
    && t.payments[r.payment].CanRefund(r.amount)
    && u == Publish(t.(payments := t.payments[r.payment := RefundedPayment(t, r)],
                       refunds := if RefundKeyTaken(t, r) then t.refunds else t.refunds + [r],
                       ledger := u.ledger),
                    RefundEvent(RefundPendingEvent, r, PaymentsTopic))
    && WriteDoubleEntry(cfg, t.ledger, |t.ledger|, stamp,
         RefundPosting(r.payment, r.merchant, r.currency, r.amount)) == Ok(u.ledger)
  }

  lemma RefundCommits(cfg: Config, t: Tables, request: RefundRequest, stamp: Stamp)
    requires CreateRefund(cfg, t, request, stamp).Ok?
    ensures var (u, r) := CreateRefund(cfg, t, request, stamp).value;
            RefundEffect(cfg, t, u, r, stamp)
  {
    CommittedRefund(cfg, t, CreateRefund(cfg, t, request, stamp).value.1, stamp);
  }

  lemma CommittedRefund(cfg: Config, t: Tables, r: Refund, stamp: Stamp)
    requires CommitRefund(cfg, t, r, stamp).Ok?
    requires r.payment in t.payments && t.payments[r.payment].CanRefund(r.amount)
    requires t.payments[r.payment].merchant == r.merchant && t.payments[r.payment].currency == r.currency
    ensures RefundEffect(cfg, t, CommitRefund(cfg, t, r, stamp).value, r, stamp)
  {
    var inserted := InsertRefund(t, r).value;
    assert inserted == t.(refunds := if RefundKeyTaken(t, r) then t.refunds else t.refunds + [r]);
    assert IncrementRefunded(inserted, r.payment, r.amount).value
        == inserted.(payments := t.payments[r.payment := RefundedPayment(t, r)]);
  }

  lemma RefundStep(
    cfg: Config, t: Tables, u: Tables, skipped: seq<Refund>, skipped': seq<Refund>, r: Refund, stamp: Stamp)
    requires RefundEffect(cfg, t, u, r, stamp)
    requires LedgerOk(cfg, t.ledger) && KnownOk(cfg.rate, t, skipped, r.payment)
    requires skipped' == SkippedAfter(t, skipped, r)
    ensures OnlyPayment(t, u, skipped, skipped', r.payment)
    ensures SameIdentity(t, u, r.payment) && SameSettlement(t, u, r.payment)
    ensures LedgerOk(cfg, u.ledger) && KnownOk(cfg.rate, u, skipped', r.payment)
    ensures forall account :: Balance(u.ledger, u.payments[r.payment].merchant, account)
              == Balance(t.ledger, u.payments[r.payment].merchant, account)
               + ShareDelta(cfg.rate, t, u, r.payment, account)
  {
    RefundPosted(cfg, t, u, r, stamp);
    RefundOnly(t, u, skipped, skipped', r);
    RefundedRow(cfg.rate, t, u, skipped, skipped', r);
  }

  /** A refund touches its payment's row and appends rows of its own. */
  lemma RefundOnly(t: Tables, u: Tables, skipped: seq<Refund>, skipped': seq<Refund>, r: Refund)
    requires r.payment in t.payments && r.amount > 0 && t.payments[r.payment].merchant == r.merchant
    requires u == t.(payments := t.payments[r.payment := RefundedPayment(t, r)], refunds := u.refunds,
                     ledger := u.ledger, outbox := u.outbox)
    requires (u.refunds == t.refunds && skipped' == skipped + [r]) || (u.refunds == t.refunds + [r] && skipped' == skipped)
    requires u.outbox == t.outbox + [RefundEvent(RefundPendingEvent, r, PaymentsTopic)]
    requires t.ledger <= u.ledger
    requires forall i :: |t.ledger| <= i < |u.ledger| ==>
               u.ledger[i].payment == r.payment && u.ledger[i].merchant == r.merchant
    ensures OnlyPayment(t, u, skipped, skipped', r.payment)
    ensures SameIdentity(t, u, r.payment) && SameSettlement(t, u, r.payment)
  {
  }

  lemma RefundPosted(cfg: Config, t: Tables, u: Tables, r: Refund, stamp: Stamp)
    requires RefundEffect(cfg, t, u, r, stamp) && LedgerOk(cfg, t.ledger)
    requires LedgerAgrees(cfg.rate, t.ledger, r.payment, t.payments[r.payment].capturedAmount,
               t.payments[r.payment].refundedAmount)
    ensures LedgerOk(cfg, u.ledger) && t.ledger <= u.ledger
    ensures LedgerAgrees(cfg.rate, u.ledger, r.payment, t.payments[r.payment].capturedAmount,
              t.payments[r.payment].refundedAmount + r.amount)
    ensures forall i :: |t.ledger| <= i < |u.ledger| ==>
              u.ledger[i].payment == r.payment && u.ledger[i].merchant == r.merchant
    ensures forall account :: Balance(u.ledger, r.merchant, account)
              == Balance(t.ledger, r.merchant, account) + ShareDelta(cfg.rate, t, u, r.payment, account)
  {
    PostedPair(cfg, t.ledger, |t.ledger|, stamp, RefundPosting(r.payment, r.merchant, r.currency, r.amount));
  }

  function RefundedPayment(t: Tables, r: Refund): Payment
    requires r.payment in t.payments
  {
    t.payments[r.payment].(refundedAmount := t.payments[r.payment].refundedAmount + r.amount)
  }

  lemma RefundedRow(rate: Rate, t: Tables, u: Tables, skipped: seq<Refund>, skipped': seq<Refund>, r: Refund)
    requires r.payment in t.payments && KnownOk(rate, t, skipped, r.payment)
    requires t.payments[r.payment].CanRefund(r.amount)
    requires u.payments == t.payments[r.payment := RefundedPayment(t, r)]
    requires (u.refunds == t.refunds && skipped' == skipped + [r]) || (u.refunds == t.refunds + [r] && skipped' == skipped)
    requires u.settlements == t.settlements
    requires u.outbox == t.outbox + [RefundEvent(RefundPendingEvent, r, PaymentsTopic)]
    requires LedgerAgrees(rate, u.ledger, r.payment, t.payments[r.payment].capturedAmount,
               t.payments[r.payment].refundedAmount + r.amount)
    ensures KnownOk(rate, u, skipped', r.payment)
  {
    RefundLogs(t, u, r);
    SumSnoc(t.refunds, r, RefundRows(r.payment));
    SumSnoc(skipped, r, RefundRows(r.payment));
  }

  lemma RefundLogs(t: Tables, u: Tables, r: Refund)
    requires u.outbox == t.outbox + [RefundEvent(RefundPendingEvent, r, PaymentsTopic)]
    requires u.settlements == t.settlements
    requires OutboxAgrees(t.outbox, r.payment, HasCapture(t, r.payment))
    ensures OutboxAgrees(u.outbox, r.payment, HasCapture(t, r.payment))
    ensures ToldStatus(u, r.payment) == ToldStatus(t, r.payment)
  {
  }

  /** The acquirer's answer touches refund rows only, and no amount. */
  lemma RefundStatusKeeps(
    cfg: Config, t: Tables, skipped: seq<Refund>, initial: map<Id, MerchantBalance>, refund: Id, status: RefundStatus)
    requires TablesOk(cfg, t, skipped, initial)
    ensures TablesOk(cfg, UpdateRefundStatus(t, refund, status), skipped, initial)
  {
    var u := UpdateRefundStatus(t, refund, status);
    forall id ensures PaymentOk(cfg.rate, u, skipped, id) {
      assert PaymentOk(cfg.rate, t, skipped, id);
      SumPointwise(t.refunds, u.refunds, RefundRows(id));
    }
    assert forall m :: BalancesAgree(cfg.rate, t, m) ==> BalancesAgree(cfg.rate, u, m);
    assert forall m :: SettlementsAgree(t, m) ==> SettlementsAgree(u, m);
    assert forall m :: PayoutsAgree(t, initial, m) ==> PayoutsAgree(u, initial, m);
    forall i | 0 <= i < |u.settlements| ensures SettlementOk(cfg.rate, u, u.settlements[i]) {
      assert Rows(t, t.settlements[i].members) == Rows(u, u.settlements[i].members);
    }
  }

  lemma RefundNoticeKeeps(cfg: Config, t: Tables, skipped: seq<Refund>, initial: map<Id, MerchantBalance>, r: Refund)
    requires TablesOk(cfg, t, skipped, initial)
    ensures TablesOk(cfg, Publish(t, RefundEvent(RefundSucceededEvent, r, WebhooksTopic)), skipped, initial)
  {
    var u := Publish(t, RefundEvent(RefundSucceededEvent, r, WebhooksTopic));
    forall id ensures PaymentOk(cfg.rate, u, skipped, id) {
      NoticeRow(cfg.rate, t, skipped, r, id);
    }
    assert forall m :: BalancesAgree(cfg.rate, t, m) ==> BalancesAgree(cfg.rate, u, m);
    assert forall m :: SettlementsAgree(t, m) ==> SettlementsAgree(u, m);
    assert forall m :: PayoutsAgree(t, initial, m) ==> PayoutsAgree(u, initial, m);
    forall i | 0 <= i < |u.settlements| ensures SettlementOk(cfg.rate, u, u.settlements[i]) {
      assert Rows(t, t.settlements[i].members) == Rows(u, u.settlements[i].members);
    }
  }

  lemma NoticeRow(rate: Rate, t: Tables, skipped: seq<Refund>, r: Refund, id: Id)
    requires PaymentOk(rate, t, skipped, id)
    ensures PaymentOk(rate, Publish(t, RefundEvent(RefundSucceededEvent, r, WebhooksTopic)), skipped, id)
  {
  }

  // ---------- settlement ----------

  /** What a settlement leaves of a payment's ledger, refunds and events, and what it adds to its memberships. */
  lemma SettledLogs(t: Tables, u: Tables, s: Settlement, id: Id)
    requires OutboxAgrees(t.outbox, id, HasCapture(t, id)) && u.settlements == t.settlements + [s]
    requires u.outbox == t.outbox + [Event(SettlementCompleted, s.id, None, WebhooksTopic)]
    ensures OutboxAgrees(u.outbox, id, HasCapture(t, id)) && Replay(u.outbox, id) == Replay(t.outbox, id)
    ensures SumBy(u.settlements, Memberships(id)) == SumBy(t.settlements, Memberships(id)) + (if id in s.members then 1 else 0)
  {
    OutboxFrame(t.outbox, u.outbox, id, HasCapture(t, id));
    ReplayFrame(t.outbox, u.outbox, id);
    SumSnoc(t.settlements, s, Memberships(id));
  }

  lemma SettledRow(rate: Rate, t: Tables, u: Tables, skipped: seq<Refund>, s: Settlement, now: int, id: Id)
    requires PaymentOk(rate, t, skipped, id)
    requires s.members <= t.payments.Keys
    requires id in s.members ==> Unsettled(t.payments[id], s.merchant)
    requires u.payments == MarkSettled(t, s.members, now).payments
    requires u.ledger == t.ledger && u.refunds == t.refunds
    requires u.settlements == t.settlements + [s]
    requires u.outbox == t.outbox + [Event(SettlementCompleted, s.id, None, WebhooksTopic)]
    ensures PaymentOk(rate, u, skipped, id)
  {
    SettledLogs(t, u, s, id);
  }

  lemma SettledSum(t: Tables, u: Tables, s: Settlement, now: int, m: Id)
    requires s.members <= t.payments.Keys
    requires forall id :: id in s.members ==> Unsettled(t.payments[id], s.merchant)
    requires u.payments == MarkSettled(t, s.members, now).payments
    ensures SumMap(u.payments, SettledOf(m)) == SumMap(t.payments, SettledOf(m))
              + if m == s.merchant then SumMap(Rows(t, s.members), ChargedAmount()) else 0
  {
    SumMapSplit(t.payments, s.members, SettledOf(m));
    SumMapSplit(u.payments, s.members, SettledOf(m));
    SumMapEqual(t.payments - s.members, u.payments - s.members, SettledOf(m), SettledOf(m));
    SumMapZero(Rows(t, s.members), SettledOf(m));
    if m == s.merchant {
      SumMapEqual(Rows(t, s.members), Rows(u, s.members), ChargedAmount(), SettledOf(m));
    } else {
      SumMapZero(Rows(u, s.members), SettledOf(m));
    }
  }

  lemma {:induction false} SumMapZero(rows: map<Id, Payment>, f: Payment -> int)
    requires forall id :: id in rows ==> f(rows[id]) == 0
    ensures SumMap(rows, f) == 0
    decreases |rows|
  {
    if rows != map[] {
      var id :| id in rows;
      SumMapRemove(rows, id, f);
      SumMapZero(rows - {id}, f);
    }
  }

  /** What the settlement leaves in place for an older or the new settlement. */
  lemma SettlementKept(rate: Rate, t: Tables, u: Tables, members: set<Id>, now: int, s: Settlement)
    requires u.payments == MarkSettled(t, members, now).payments
    requires SettlementOk(rate, t, s)
    ensures SettlementOk(rate, u, s)
  {
    SumMapEqual(Rows(t, s.members), Rows(u, s.members), ChargedAmount(), ChargedAmount());
  }

  lemma SettledBalances(rate: Rate, t: Tables, u: Tables, members: set<Id>, now: int, m: Id)
    requires u.payments == MarkSettled(t, members, now).payments && u.ledger == t.ledger
    requires BalancesAgree(rate, t, m)
    ensures BalancesAgree(rate, u, m)
  {
    forall account
      ensures Balance(u.ledger, m, account) == SumMap(u.payments, ShareOf(rate, m, account))
    {
      SumMapEqual(t.payments, u.payments, ShareOf(rate, m, account), ShareOf(rate, m, account));
    }
  }

  lemma SettledKeys(t: Tables, u: Tables, members: set<Id>, now: int)
    requires u.payments == MarkSettled(t, members, now).payments
    requires UniqueKeys(t.payments)
    ensures UniqueKeys(u.payments)
  {
  }

  lemma SettledMerchant(
    t: Tables, u: Tables, initial: map<Id, MerchantBalance>, s: Settlement, now: int, m: Id)
    requires SettlementsAgree(t, m) && PayoutsAgree(t, initial, m)
    requires s.members <= t.payments.Keys && forall id :: id in s.members ==> Unsettled(t.payments[id], s.merchant)
    requires s.total == SumMap(Rows(t, s.members), ChargedAmount()) && s.net == s.total - s.fee
    requires s.total > 0 && SumMap(t.payments, SettledOf(m)) >= 0
    requires u.payments == MarkSettled(t, s.members, now).payments && u.settlements == t.settlements + [s]
    requires u.balances == CreditBalance(t, s.merchant, s.net, s.total).balances
    ensures SettlementsAgree(u, m) && PayoutsAgree(u, initial, m)
  {
    SettledSum(t, u, s, now, m);
    SumSnoc(t.settlements, s, TotalsOf(m));
    SumSnoc(t.settlements, s, NetsOf(m));
  }

  /** A settlement of unsettled payments of one merchant, and what it writes. */
  ghost predicate Settles(cfg: Config, t: Tables, u: Tables, s: Settlement, now: int) {
    && s.members != {} && s.members <= t.payments.Keys
    && (forall id :: id in s.members ==> Unsettled(t.payments[id], s.merchant))
    && s.total == SumMap(Rows(t, s.members), ChargedAmount())
    && s.fee == Fee(cfg.rate, s.total) && s.net == s.total - s.fee
    && u.payments == MarkSettled(t, s.members, now).payments
    && u.settlements == t.settlements + [s]
    && u.balances == CreditBalance(t, s.merchant, s.net, s.total).balances
    && u.outbox == t.outbox + [Event(SettlementCompleted, s.id, None, WebhooksTopic)]
    && u.ledger == t.ledger && u.refunds == t.refunds
  }

  lemma SettleCommits(cfg: Config, t: Tables, id: Id, merchant: Id, locked: set<Id>, now: int)
    requires SettleMerchant(cfg, t, id, merchant, locked, now).Ok?
    ensures var s := NewSettlement(cfg, t, id, merchant, locked);
            var u := SettleMerchant(cfg, t, id, merchant, locked, now).value.0;
            if s.members == {} then u == t else Settles(cfg, t, u, s, now)
  {
  }

  /** A settlement's total is positive, and what was settled before is not negative. */
  lemma PositiveTotals(rate: Rate, t: Tables, skipped: seq<Refund>, s: Settlement)
    requires forall id :: PaymentOk(rate, t, skipped, id)
    requires s.members != {} && s.members <= t.payments.Keys
    ensures SumMap(Rows(t, s.members), ChargedAmount()) > 0
    ensures forall m :: SumMap(t.payments, SettledOf(m)) >= 0
  {
    forall id | id in t.payments ensures t.payments[id].Charged() > 0 {
      assert PaymentOk(rate, t, skipped, id);
    }
    var id :| id in s.members;
    SumMapRemove(Rows(t, s.members), id, ChargedAmount());
    SumMapNonNegative(Rows(t, s.members) - {id}, ChargedAmount());
    forall m ensures SumMap(t.payments, SettledOf(m)) >= 0 {
      SumMapNonNegative(t.payments, SettledOf(m));
    }
  }

  lemma SettlesKeeps(
    cfg: Config, t: Tables, u: Tables, skipped: seq<Refund>, initial: map<Id, MerchantBalance>, s: Settlement, now: int)
    requires TablesOk(cfg, t, skipped, initial) && Settles(cfg, t, u, s, now)
    ensures TablesOk(cfg, u, skipped, initial)
  {
    forall id ensures PaymentOk(cfg.rate, u, skipped, id) {
      SettledRow(cfg.rate, t, u, skipped, s, now, id);
    }
    SettledKeys(t, u, s.members, now);
    PositiveTotals(cfg.rate, t, skipped, s);
    forall m ensures BalancesAgree(cfg.rate, u, m) && SettlementsAgree(u, m) && PayoutsAgree(u, initial, m) {
      SettledBalances(cfg.rate, t, u, s.members, now, m);
      SettledMerchant(t, u, initial, s, now, m);
    }
    SettledOk(cfg, t, u, skipped, s, now);
  }

  lemma SettleKeeps(
    cfg: Config, t: Tables, skipped: seq<Refund>, initial: map<Id, MerchantBalance>, id: Id, merchant: Id,
    locked: set<Id>, now: int)
    requires TablesOk(cfg, t, skipped, initial)
    requires SettleMerchant(cfg, t, id, merchant, locked, now).Ok?
    ensures TablesOk(cfg, SettleMerchant(cfg, t, id, merchant, locked, now).value.0, skipped, initial)
  {
    var s := NewSettlement(cfg, t, id, merchant, locked);
    SettleCommits(cfg, t, id, merchant, locked, now);
    if s.members != {} {
      SettlesKeeps(cfg, t, SettleMerchant(cfg, t, id, merchant, locked, now).value.0, skipped, initial, s, now);
    }
  }

  lemma SettledOk(cfg: Config, t: Tables, u: Tables, skipped: seq<Refund>, s: Settlement, now: int)
    requires forall id :: PaymentOk(cfg.rate, t, skipped, id)
    requires forall i :: 0 <= i < |t.settlements| ==> SettlementOk(cfg.rate, t, t.settlements[i])
    requires s.members != {} && s.members <= t.payments.Keys
    requires forall id :: id in s.members ==> Unsettled(t.payments[id], s.merchant)
    requires s.total == SumMap(Rows(t, s.members), ChargedAmount())
    requires s.fee == Fee(cfg.rate, s.total) && s.net == s.total - s.fee
    requires u.payments == MarkSettled(t, s.members, now).payments && u.settlements == t.settlements + [s]
    ensures forall i :: 0 <= i < |u.settlements| ==> SettlementOk(cfg.rate, u, u.settlements[i])
  {
    forall id | id in s.members ensures HasCapture(t, id) {
      assert PaymentOk(cfg.rate, t, skipped, id);
    }
    forall i | 0 <= i < |u.settlements| ensures SettlementOk(cfg.rate, u, u.settlements[i]) {
      SettlementKept(cfg.rate, t, u, s.members, now, u.settlements[i]);
    }
  }
}
