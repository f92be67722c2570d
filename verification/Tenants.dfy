/** Merchants share every table: whose rows a step may write. */
module Tenants {
  import opened Models
  import opened Fees
  import opened Ledger
  import opened Schema
  import opened Transactions
  import opened Protocol
  import opened Preservation
  import opened Runs
  import opened Safety
  import opened Verdicts
  import opened Refunds
  import opened Outcomes

  /** The request that the step carries on from one of its transactions. */
  function Carried(a: Action): Option<Req> {
    match a
    case CreateFail(req) => Some(req)
    case CreateFinish(req, _, _) => Some(req)
    case CaptureFinish(req, _, _) => Some(req)
    case RefundVerdict(req, _) => Some(req)
    case RefundNotify(req) => Some(req)
    case _ => None
  }

  /** The merchant whose request, dispute or settlement the step belongs to; None for steps of no request and for
      those that only move a request between transactions. */
  function Acting(s: System, a: Action): Option<Id> {
    match a
    case CreateInsert(_, payment) => Some(payment.merchant)
    case RefundStart(_, request, _) => Some(request.merchant)
    case Cancel(_, merchant) => Some(merchant)
    case OpenDispute(d) => Some(d.merchant)
    case Settle(_, merchant, _, _) => Some(merchant)
    case _ =>
      if Carried(a).Some? && Carried(a).value in s.requests then Some(s.requests[Carried(a).value].Merchant()) else None
  }

  /** Payments written, inserted or not, and balances changed are the merchant's. */
  ghost predicate OwnPayments(t: Tables, u: Tables, merchant: Id) {
    && t.payments.Keys <= u.payments.Keys
    && (forall id :: id in u.payments && (id in t.payments ==> u.payments[id] != t.payments[id]) ==>
          u.payments[id].merchant == merchant && (id in t.payments ==> t.payments[id].merchant == merchant))
    && u.balances.Keys == t.balances.Keys
    && (forall m :: m in t.balances && m != merchant ==> u.balances[m] == t.balances[m])
  }

  /** Rows appended to the ledger, the settlements and the disputes are the merchant's; none is changed. */
  ghost predicate OwnAppends(t: Tables, u: Tables, merchant: Id) {
    && t.ledger <= u.ledger && t.settlements <= u.settlements && t.disputes <= u.disputes
    && (forall i :: |t.ledger| <= i < |u.ledger| ==> u.ledger[i].merchant == merchant)
    && (forall i :: |t.settlements| <= i < |u.settlements| ==> u.settlements[i].merchant == merchant)
    && (forall i :: |t.disputes| <= i < |u.disputes| ==> u.disputes[i].merchant == merchant)
  }

  /** Refund rows appended or changed are the merchant's. */
  ghost predicate OwnRefunds(t: Tables, u: Tables, merchant: Id) {
    && |t.refunds| <= |u.refunds|
    && (forall i :: 0 <= i < |u.refunds| && (i < |t.refunds| ==> u.refunds[i] != t.refunds[i]) ==>
          u.refunds[i].merchant == merchant && (i < |t.refunds| ==> t.refunds[i].merchant == merchant))
  }

  ghost predicate OwnWrites(t: Tables, u: Tables, merchant: Id) {
    OwnPayments(t, u, merchant) && OwnAppends(t, u, merchant) && OwnRefunds(t, u, merchant)
  }

  /** Every row appended is about this payment. */
  predicate RowsAbout(rows: seq<Entry>, after: seq<Entry>, payment: Id, merchant: Id, currency: Currency) {
    && rows <= after
    && forall i :: |rows| <= i < |after| ==>
         after[i].payment == payment && after[i].merchant == merchant && after[i].currency == currency
  }

  lemma WriteAbout(cfg: Config, rows: seq<Entry>, own: nat, stamp: Stamp, p: Posting)
    requires own <= |rows| && WriteDoubleEntry(cfg, rows, own, stamp, p).Ok?
    ensures RowsAbout(rows, WriteDoubleEntry(cfg, rows, own, stamp, p).value, p.payment, p.merchant, p.currency)
  {
    WriteOutcome(cfg, rows, own, stamp, p);
    var (debit, credit) := Pair(cfg, rows, own, stamp, p);
    PairAbout(rows, debit, credit);
  }

  lemma PairAbout(rows: seq<Entry>, debit: Entry, credit: Entry)
    requires debit.payment == credit.payment && debit.merchant == credit.merchant && debit.currency == credit.currency
    ensures RowsAbout(rows, rows + [debit] + [credit], debit.payment, debit.merchant, debit.currency)
  {
    TwoMore(rows, debit, credit);
  }

  lemma PostAbout(cfg: Config, rows: seq<Entry>, p: Payment, base: int, capture: Stamp, fee: Stamp)
    requires PostCapture(cfg, rows, p, base, capture, fee).Ok?
    ensures RowsAbout(rows, PostCapture(cfg, rows, p, base, capture, fee).value, p.id, p.merchant, p.currency)
  {
    WriteAbout(cfg, rows, |rows|, capture, CapturePosting(p));
    if Fee(cfg.rate, base) > 0 {
      var posted := WriteDoubleEntry(cfg, rows, |rows|, capture, CapturePosting(p)).value;
      WriteAbout(cfg, posted, |rows|, fee, FeePosting(p, Fee(cfg.rate, base)));
    }
  }

  lemma ChargeAbout(cfg: Config, t: Tables, row: Payment, base: int, capture: Stamp, fee: Stamp)
    requires CommitCharge(cfg, t, row, base, capture, fee).Ok?
    ensures RowsAbout(t.ledger, CommitCharge(cfg, t, row, base, capture, fee).value.ledger, row.id, row.merchant, row.currency)
  {
    if row.status == Captured {
      PostAbout(cfg, t.ledger, row, base, capture, fee);
    }
  }

  lemma ChargeOwn(cfg: Config, t: Tables, row: Payment, base: int, capture: Stamp, fee: Stamp)
    requires CommitCharge(cfg, t, row, base, capture, fee).Ok?
    requires row.id in t.payments && t.payments[row.id].merchant == row.merchant
    ensures OwnWrites(t, CommitCharge(cfg, t, row, base, capture, fee).value, row.merchant)
  {
    var u := CommitCharge(cfg, t, row, base, capture, fee).value;
    ChargedRows(cfg, t, row, base, capture, fee);
    ChargeAbout(cfg, t, row, base, capture, fee);
    assert u.settlements == t.settlements && u.disputes == t.disputes;
    assert OwnRefunds(t, u, row.merchant) && OwnPayments(t, u, row.merchant);
  }

  lemma RefundOwn(cfg: Config, t: Tables, request: RefundRequest, stamp: Stamp)
    requires CreateRefund(cfg, t, request, stamp).Ok?
    ensures OwnWrites(t, CreateRefund(cfg, t, request, stamp).value.0, request.merchant)
  {
    var (u, r) := CreateRefund(cfg, t, request, stamp).value;
    RefundOutcome(cfg, t, request, stamp);
    RefundCommits(cfg, t, request, stamp);
    WriteAbout(cfg, t.ledger, |t.ledger|, stamp, RefundPosting(r.payment, r.merchant, r.currency, r.amount));
  }

  lemma SettleOwn(cfg: Config, t: Tables, id: Id, merchant: Id, locked: set<Id>, now: int)
    requires SettleMerchant(cfg, t, id, merchant, locked, now).Ok?
    ensures OwnWrites(t, SettleMerchant(cfg, t, id, merchant, locked, now).value.0, merchant)
  {
    SettleOutcome(cfg, t, id, merchant, locked, now);
  }

  lemma ChargeStepOwn(cfg: Config, s: System, a: Action)
    requires OwnIds(s.db) && (a.CreateFinish? || a.CaptureFinish?)
    ensures Next(cfg, s, a).db == s.db || (Acting(s, a).Some? && OwnWrites(s.db, Next(cfg, s, a).db, Acting(s, a).value))
  {
    var row, base := ChargeCommits(cfg, s, a);
    if Next(cfg, s, a).db != s.db {
      ChargeOwn(cfg, s.db, row, base, a.capture, a.fee);
    }
  }

  /** The acquirer's answer to a refund whose row was not skipped. */
  lemma AnswerOwn(cfg: Config, s: System, said: seq<Verdict>, a: Action)
    requires RefundsOk(s, said) && a.RefundVerdict? && a.req in s.requests && s.requests[a.req].RefundSent?
    requires !SkippedId(s, s.requests[a.req].refund.id)
    ensures OwnWrites(s.db, Next(cfg, s, a).db, s.requests[a.req].refund.merchant)
  {
    var r := s.requests[a.req].refund;
    assert InFlight(s, s.requests[a.req]);
    var k :| 0 <= k < |s.db.refunds| && s.db.refunds[k] == r;
    assert forall i :: 0 <= i < |s.db.refunds| && s.db.refunds[i].id == r.id ==> i == k;
  }

  lemma InsertOwn(cfg: Config, s: System, req: Req, payment: Payment)
    ensures OwnWrites(s.db, Next(cfg, s, CreateInsert(req, payment)).db, payment.merchant)
  {
  }

  lemma FailOwn(cfg: Config, s: System, a: Action)
    requires CreatorsOk(s) && a.CreateFail? && Acting(s, a).Some?
    ensures OwnWrites(s.db, Next(cfg, s, a).db, Acting(s, a).value)
  {
    if s.requests[a.req].Creating() {
      assert CreatorOk(s.db, s.requests[a.req].payment);
    }
  }

  lemma CancelOwn(t: Tables, id: Id, merchant: Id)
    requires CancelPayment(t, id, merchant).Ok?
    ensures OwnWrites(t, CancelPayment(t, id, merchant).value.0, merchant)
  {
    CancelOutcome(t, id, merchant);
  }

  lemma DisputeOwn(t: Tables, d: Dispute)
    requires CreateDispute(t, d).Ok?
    ensures OwnWrites(t, CreateDispute(t, d).value, d.merchant)
  {
    DisputeOutcome(t, d);
  }

  /** The other steps write nothing but the outbox. */
  lemma QuietOwn(cfg: Config, s: System, a: Action)
    requires a.RefundNotify? || a.FraudVerdict? || a.ChargeCall? || a.CaptureStart? || a.CaptureVerdict? || a.Crash?
    ensures Next(cfg, s, a).db == s.db.(outbox := Next(cfg, s, a).db.outbox)
    ensures Next(cfg, s, a).db != s.db ==> Acting(s, a).Some?
  {
  }

  /** The step writes rows of its own merchant only, or is the answer to a refund with the id of a skipped one. */
  ghost predicate WritesOwn(s: System, u: System, a: Action) {
    || u.db == s.db
    || (Acting(s, a).Some? && OwnWrites(s.db, u.db, Acting(s, a).value))
    || (a.RefundVerdict? && a.req in s.requests && s.requests[a.req].RefundSent?
        && SkippedId(s, s.requests[a.req].refund.id))
  }

  lemma OutsideStepOwn(cfg: Config, s: System, a: Action)
    requires a.RefundStart? || a.Cancel? || a.OpenDispute? || a.Settle?
    ensures WritesOwn(s, Next(cfg, s, a), a)
  {
    match a
    case RefundStart(req, request, stamp) =>
      if req !in s.requests && CreateRefund(cfg, s.db, request, stamp).Ok? { RefundOwn(cfg, s.db, request, stamp); }
    case Cancel(id, merchant) =>
      if CancelPayment(s.db, id, merchant).Ok? { CancelOwn(s.db, id, merchant); }
    case OpenDispute(d) =>
      if CreateDispute(s.db, d).Ok? { DisputeOwn(s.db, d); }
    case Settle(id, merchant, locked, now) =>
      if SettleMerchant(cfg, s.db, id, merchant, locked, now).Ok? { SettleOwn(cfg, s.db, id, merchant, locked, now); }
  }

  lemma QuietStepOwn(cfg: Config, s: System, a: Action)
    requires a.RefundNotify? || a.FraudVerdict? || a.ChargeCall? || a.CaptureStart? || a.CaptureVerdict? || a.Crash?
    ensures WritesOwn(s, Next(cfg, s, a), a)
  {
    QuietOwn(cfg, s, a);
  }

  lemma AnswerStepOwn(cfg: Config, s: System, said: seq<Verdict>, a: Action)
    requires RefundsOk(s, said) && a.RefundVerdict?
    ensures WritesOwn(s, Next(cfg, s, a), a)
  {
    if a.req in s.requests && s.requests[a.req].RefundSent? && !SkippedId(s, s.requests[a.req].refund.id) {
      AnswerOwn(cfg, s, said, a);
    }
  }

  lemma CreateStepOwn(cfg: Config, s: System, a: Action)
    requires CreatorsOk(s) && (a.CreateInsert? || a.CreateFail?)
    ensures WritesOwn(s, Next(cfg, s, a), a)
  {
    if a.CreateInsert? {
      InsertOwn(cfg, s, a.req, a.payment);
    } else if a.req in s.requests {
      FailOwn(cfg, s, a);
    }
  }

  /** In every run a step writes rows of its own merchant only: payments, ledger, refunds, settlements, disputes
      and balances. The one exception is the answer to a refund with the id of a skipped one. */
  lemma OnlyOwnRows(
    cfg: Config, initial: map<Id, MerchantBalance>, run: seq<Action>, states: seq<System>, a: Action)
    requires Passes(cfg, Start(initial), run, states)
    ensures WritesOwn(states[|run|], Next(cfg, states[|run|], a), a)
  {
    var s := states[|run|];
    RunHeeds(cfg, initial, run, states);
    RunTells(cfg, initial, run, states);
    OwnIdsOk(cfg, s, initial);
    match a
    case CreateInsert(_, _) => CreateStepOwn(cfg, s, a);
    case CreateFail(_) => CreateStepOwn(cfg, s, a);
    case CreateFinish(_, _, _) => ChargeStepOwn(cfg, s, a);
    case CaptureFinish(_, _, _) => ChargeStepOwn(cfg, s, a);
    case RefundVerdict(_, _) => AnswerStepOwn(cfg, s, Answers(run, states), a);
    case RefundStart(_, _, _) => OutsideStepOwn(cfg, s, a);
    case Cancel(_, _) => OutsideStepOwn(cfg, s, a);
    case OpenDispute(_) => OutsideStepOwn(cfg, s, a);
    case Settle(_, _, _, _) => OutsideStepOwn(cfg, s, a);
    case _ => QuietStepOwn(cfg, s, a);
  }

  // ---------- ledger rows and their payments ----------

  /** The row is about a payment there is, in its currency and of its merchant. */
  predicate OfItsPayment(t: Tables, e: Entry) {
    && e.payment in t.payments
    && e.merchant == t.payments[e.payment].merchant && e.currency == t.payments[e.payment].currency
  }

  predicate RowsMatch(t: Tables) {
    forall i :: 0 <= i < |t.ledger| ==> OfItsPayment(t, t.ledger[i])
  }

  lemma RefundAbout(cfg: Config, t: Tables, request: RefundRequest, stamp: Stamp)
    requires CreateRefund(cfg, t, request, stamp).Ok?
    ensures request.payment in t.payments
    ensures var p := t.payments[request.payment];
            RowsAbout(t.ledger, CreateRefund(cfg, t, request, stamp).value.0.ledger, request.payment, p.merchant, p.currency)
  {
    var r := CreateRefund(cfg, t, request, stamp).value.1;
    RefundOutcome(cfg, t, request, stamp);
    RefundCommits(cfg, t, request, stamp);
    WriteAbout(cfg, t.ledger, |t.ledger|, stamp, RefundPosting(r.payment, r.merchant, r.currency, r.amount));
  }

  lemma ChargeRowsMatch(cfg: Config, s: System, a: Action)
    requires OwnIds(s.db) && (a.CreateFinish? || a.CaptureFinish?)
    ensures var u := Next(cfg, s, a).db;
            && s.db.ledger <= u.ledger
            && forall i :: |s.db.ledger| <= i < |u.ledger| ==> OfItsPayment(s.db, u.ledger[i])
  {
    var row, base := ChargeCommits(cfg, s, a);
    if Next(cfg, s, a).db != s.db {
      ChargeAbout(cfg, s.db, row, base, a.capture, a.fee);
    }
  }

  /** What a step appends to the ledger is about payments there are. */
  lemma AppendsMatch(cfg: Config, s: System, a: Action)
    requires OwnIds(s.db)
    ensures var u := Next(cfg, s, a).db;
            && s.db.ledger <= u.ledger
            && forall i :: |s.db.ledger| <= i < |u.ledger| ==> OfItsPayment(s.db, u.ledger[i])
  {
    if a.CreateFinish? || a.CaptureFinish? {
      ChargeRowsMatch(cfg, s, a);
    } else if a.RefundStart? && CreateRefund(cfg, s.db, a.refund, a.stamp).Ok? {
      RefundAbout(cfg, s.db, a.refund, a.stamp);
    } else {
      LedgerUntouched(cfg, s, a);
    }
  }

  lemma StepMatches(cfg: Config, s: System, a: Action)
    requires OwnIds(s.db) && RowsMatch(s.db)
    ensures RowsMatch(Next(cfg, s, a).db)
  {
    var t, u := s.db, Next(cfg, s, a).db;
    AppendsMatch(cfg, s, a);
    if !a.CreateInsert? {
      SameRows(cfg, s, a);
    }
    forall i | 0 <= i < |u.ledger| ensures OfItsPayment(u, u.ledger[i]) {
      if i < |t.ledger| {
        assert OfItsPayment(t, t.ledger[i]) && u.ledger[i] == t.ledger[i];
      } else {
        assert OfItsPayment(t, u.ledger[i]);
      }
    }
  }

  lemma {:induction false} RunMatches(
    cfg: Config, initial: map<Id, MerchantBalance>, run: seq<Action>, states: seq<System>)
    requires Passes(cfg, Start(initial), run, states)
    ensures SystemOk(cfg, states[|run|], initial) && RowsMatch(states[|run|].db)
    decreases |run|
  {
    if run == [] {
      StartOk(cfg, initial);
    } else {
      var last := |run| - 1;
      PassesFront(cfg, Start(initial), run, states);
      RunMatches(cfg, initial, run[..last], states[..|run|]);
      OwnIdsOk(cfg, states[last], initial);
      StepKeeps(cfg, states[last], initial, run[last]);
      StepMatches(cfg, states[last], run[last]);
    }
  }

  /** In every reachable state each ledger row is about a payment there is, of its merchant and in its currency. */
  lemma LedgerMatchesPayments(cfg: Config, initial: map<Id, MerchantBalance>, s: System, i: nat)
    requires Reached(cfg, initial, s) && i < |s.db.ledger|
    ensures OfItsPayment(s.db, s.db.ledger[i])
  {
    var run, states :| Passes(cfg, Start(initial), run, states) && states[|run|] == s;
    RunMatches(cfg, initial, run, states);
  }
}
