/** Safety of every run of the payment protocol. */
module Runs {
  import opened Models
  import opened Sums
  import opened Ledger
  import opened Schema
  import opened Transactions
  import opened Protocol
  import opened Invariant
  import opened Preservation

  // ---------- the invariant that ties requests to rows ----------

  /** Nothing but cancellation or a dispute has touched the payment since its insert. */
  predicate Untouched(p: Payment) {
    p.capturedAmount.None? && (p.status == Created || p.status == Cancelled || p.status == Disputed)
  }

  predicate SameRequest(row: Payment, p: Payment) {
    && row.amount == p.amount && row.merchant == p.merchant && row.currency == p.currency
    && row.captureMethod == p.captureMethod && row.key == p.key
  }

  predicate CreatorOk(t: Tables, p: Payment) {
    p.id in t.payments && Untouched(t.payments[p.id]) && SameRequest(t.payments[p.id], p)
  }

  function IsId(id: Id): Id -> int {
    (other: Id) => if other == id then 1 else 0
  }

  /** How often the acquirer was asked to charge the payment. */
  function ChargeCalls(s: System, id: Id): int {
    SumBy(s.charges, IsId(id))
  }

  ghost predicate CreatorsOk(s: System) {
    && (forall r :: r in s.requests && s.requests[r].Creating() ==> CreatorOk(s.db, s.requests[r].payment))
    && (forall r, q ::
          (&& r in s.requests && q in s.requests && s.requests[r].Creating() && s.requests[q].Creating()
           && s.requests[r].payment.id == s.requests[q].payment.id)
          ==> r == q)
  }

  ghost predicate ChargesOk(s: System) {
    && (forall id :: 0 <= ChargeCalls(s, id) <= 1)
    && (forall id :: id !in s.db.payments ==> ChargeCalls(s, id) == 0)
    && (forall r :: r in s.requests && (s.requests[r].Screening? || s.requests[r].Blocked? || s.requests[r].Charging?)
          ==> ChargeCalls(s, s.requests[r].payment.id) == 0)
  }

  predicate ReplyOk(t: Tables, reply: Reply) {
    && reply.id in t.payments
    && t.payments[reply.id].merchant == reply.merchant && t.payments[reply.id].key == reply.key
  }

  ghost predicate RepliesOk(s: System) {
    forall i :: 0 <= i < |s.replies| ==> ReplyOk(s.db, s.replies[i])
  }

  ghost predicate SystemOk(cfg: Config, s: System, initial: map<Id, MerchantBalance>) {
    TablesOk(cfg, s.db, s.skipped, initial) && CreatorsOk(s) && ChargesOk(s) && RepliesOk(s)
  }

  // ---------- what a step may do to the rows of other requests ----------

  /** Rows stay, identity columns stay, and untouched rows stay untouched, except at one payment. */
  ghost predicate RowsKept(t: Tables, u: Tables, except: Option<Id>) {
    && t.payments.Keys <= u.payments.Keys
    && (forall id :: id in t.payments ==> SameRequest(u.payments[id], t.payments[id]))
    && (forall id :: id in t.payments && except != Some(id) && Untouched(t.payments[id]) ==> Untouched(u.payments[id]))
  }

  /** A step that changes only tables, leaving requests and their records alone or dropping one request. */
  lemma TablesStep(s: System, s': System, except: Option<Id>)
    requires CreatorsOk(s) && ChargesOk(s) && RepliesOk(s)
    requires RowsKept(s.db, s'.db, except) && s'.charges == s.charges
    requires s'.db.payments.Keys == s.db.payments.Keys
    requires s'.requests.Keys <= s.requests.Keys
    requires forall r :: r in s'.requests ==> s'.requests[r] == s.requests[r]
    requires forall r :: r in s'.requests && s'.requests[r].Creating() ==> except != Some(s'.requests[r].payment.id)
    requires s.replies <= s'.replies
    requires forall i :: |s.replies| <= i < |s'.replies| ==> ReplyOk(s'.db, s'.replies[i])
    ensures CreatorsOk(s') && ChargesOk(s') && RepliesOk(s')
  {
    assert forall id :: ChargeCalls(s', id) == ChargeCalls(s, id);
    forall i | 0 <= i < |s'.replies| ensures ReplyOk(s'.db, s'.replies[i]) {
      if i < |s.replies| {
        assert ReplyOk(s.db, s.replies[i]);
        assert s.replies[i] == s'.replies[i];
      }
    }
  }

  lemma FailRows(t: Tables, id: Id)
    ensures RowsKept(t, FailPayment(t, id), Some(id))
    ensures FailPayment(t, id).payments.Keys == t.payments.Keys
  {
  }

  lemma FinishRows(cfg: Config, t: Tables, request: Payment, capture: Stamp, fee: Stamp)
    requires FinishCharge(cfg, t, request, capture, fee).Ok?
    requires request.id in t.payments ==> t.payments[request.id].id == request.id
    ensures var u := FinishCharge(cfg, t, request, capture, fee).value.0;
            RowsKept(t, u, Some(request.id)) && u.payments.Keys == t.payments.Keys
  {
    var row := FinishCharge(cfg, t, request, capture, fee).value.1;
    FinishIsCommit(cfg, t, request, capture, fee);
    ChargedRows(cfg, t, row, row.amount, capture, fee);
  }

  lemma CaptureRows(
    cfg: Config, t: Tables, id: Id, merchant: Id, amount: Option<int>, capture: Stamp, fee: Stamp)
    requires CapturePayment(cfg, t, id, merchant, amount, capture, fee).Ok?
    requires id in t.payments ==> t.payments[id].id == id
    ensures var u := CapturePayment(cfg, t, id, merchant, amount, capture, fee).value.0;
            RowsKept(t, u, None) && u.payments.Keys == t.payments.Keys
  {
    var row := CapturePayment(cfg, t, id, merchant, amount, capture, fee).value.1;
    CaptureIsCommit(cfg, t, id, merchant, amount, capture, fee);
    ChargedRows(cfg, t, row, row.Charged(), capture, fee);
  }

  /** create_payment's commit and capture_payment's either change nothing or commit one row. */
  lemma ChargeCommits(cfg: Config, s: System, a: Action) returns (row: Payment, base: int)
    requires a.CreateFinish? || a.CaptureFinish?
    ensures Next(cfg, s, a).db == s.db
         || (CommitCharge(cfg, s.db, row, base, a.capture, a.fee) == Ok(Next(cfg, s, a).db)
             && (exists id :: id in s.db.payments && s.db.payments[id].id == row.id
                              && s.db.payments[id].merchant == row.merchant && s.db.payments[id].currency == row.currency)
             && a.req in s.requests && (s.requests[a.req].Approved? || s.requests[a.req].CaptureGranted?)
             && row.merchant == s.requests[a.req].Merchant())
    ensures Next(cfg, s, a).skipped == s.skipped
  {
    row, base :| true;
    if a.CreateFinish? && a.req in s.requests && s.requests[a.req].Approved? {
      var p := s.requests[a.req].payment;
      if FinishCharge(cfg, s.db, p, a.capture, a.fee).Ok? {
        FinishIsCommit(cfg, s.db, p, a.capture, a.fee);
        row := FinishCharge(cfg, s.db, p, a.capture, a.fee).value.1;
        base := row.amount;
      }
    } else if a.CaptureFinish? && a.req in s.requests && s.requests[a.req].CaptureGranted? {
      var pc := s.requests[a.req];
      if CapturePayment(cfg, s.db, pc.id, pc.merchant, pc.amount, a.capture, a.fee).Ok? {
        CaptureIsCommit(cfg, s.db, pc.id, pc.merchant, pc.amount, a.capture, a.fee);
        row := CapturePayment(cfg, s.db, pc.id, pc.merchant, pc.amount, a.capture, a.fee).value.1;
        base := row.Charged();
      }
    }
  }

  lemma RefundRowsKept(cfg: Config, t: Tables, request: RefundRequest, stamp: Stamp)
    requires CreateRefund(cfg, t, request, stamp).Ok?
    ensures var u := CreateRefund(cfg, t, request, stamp).value.0;
            RowsKept(t, u, None) && u.payments.Keys == t.payments.Keys
  {
    var (u, r) := CreateRefund(cfg, t, request, stamp).value;
    RefundCommits(cfg, t, request, stamp);
  }

  lemma CancelRows(t: Tables, id: Id, merchant: Id)
    requires CancelPayment(t, id, merchant).Ok?
    ensures var u := CancelPayment(t, id, merchant).value.0;
            RowsKept(t, u, None) && u.payments.Keys == t.payments.Keys
  {
  }

  lemma DisputeRows(t: Tables, d: Dispute)
    requires CreateDispute(t, d).Ok?
    ensures RowsKept(t, CreateDispute(t, d).value, None)
    ensures CreateDispute(t, d).value.payments.Keys == t.payments.Keys
  {
  }

  lemma SettleRows(cfg: Config, t: Tables, id: Id, merchant: Id, locked: set<Id>, now: int)
    requires SettleMerchant(cfg, t, id, merchant, locked, now).Ok?
    ensures var u := SettleMerchant(cfg, t, id, merchant, locked, now).value.0;
            RowsKept(t, u, None) && u.payments.Keys == t.payments.Keys
  {
  }

  // ---------- every action keeps the invariant ----------

  lemma InsertStep(cfg: Config, s: System, initial: map<Id, MerchantBalance>, req: Req, payment: Payment)
    requires SystemOk(cfg, s, initial)
    ensures SystemOk(cfg, Next(cfg, s, CreateInsert(req, payment)), initial)
  {
    var p, s' := NewPayment(payment), Next(cfg, s, CreateInsert(req, payment));
    if req !in s.requests {
      match InsertPaymentIdempotent(s.db, p)
      case Inserted(t) =>
        InsertKeeps(cfg, s.db, s.skipped, initial, p);
        InsertedSystem(s, s', req, p);
      case Existing(id) =>
        TablesStep(s, s', None);
      case Rejected =>
    }
  }

  lemma InsertedSystem(s: System, s': System, req: Req, p: Payment)
    requires CreatorsOk(s) && ChargesOk(s) && RepliesOk(s)
    requires req !in s.requests && p.id !in s.db.payments && Untouched(p)
    requires s'.db.payments == s.db.payments[p.id := p]
    requires s'.requests == s.requests[req := Screening(p)]
    requires s'.charges == s.charges && s'.replies == s.replies
    ensures CreatorsOk(s') && ChargesOk(s') && RepliesOk(s')
  {
    assert forall id :: ChargeCalls(s', id) == ChargeCalls(s, id);
    forall r, q | r in s'.requests && q in s'.requests && s'.requests[r].Creating() && s'.requests[q].Creating()
                  && s'.requests[r].payment.id == s'.requests[q].payment.id
      ensures r == q
    {
      if r != req { assert CreatorOk(s.db, s.requests[r].payment); }
      if q != req { assert CreatorOk(s.db, s.requests[q].payment); }
    }
    forall i | 0 <= i < |s'.replies| ensures ReplyOk(s'.db, s'.replies[i]) {
      assert ReplyOk(s.db, s.replies[i]);
    }
  }

  /** Moving a request along without touching the database. */
  lemma MoveStep(s: System, s': System, req: Req, pc: Pc)
    requires CreatorsOk(s) && ChargesOk(s) && RepliesOk(s)
    requires s' == At(s, req, pc)
    requires pc.Creating() ==> req in s.requests && s.requests[req].Creating() && s.requests[req].payment == pc.payment
    requires pc.Screening? || pc.Blocked? || pc.Charging? ==> ChargeCalls(s, pc.payment.id) == 0
    ensures CreatorsOk(s') && ChargesOk(s') && RepliesOk(s')
  {
    assert forall id :: ChargeCalls(s', id) == ChargeCalls(s, id);
  }

  lemma ChargeStep(cfg: Config, s: System, initial: map<Id, MerchantBalance>, req: Req, approved: bool)
    requires SystemOk(cfg, s, initial)
    ensures SystemOk(cfg, Next(cfg, s, ChargeCall(req, approved)), initial)
  {
    var s' := Next(cfg, s, ChargeCall(req, approved));
    if req in s.requests && s.requests[req].Charging? {
      var p := s.requests[req].payment;
      assert CreatorOk(s.db, p);
      forall id ensures ChargeCalls(s', id) == ChargeCalls(s, id) + IsId(id)(p.id) {
        SumSnoc(s.charges, p.id, IsId(id));
      }
    }
  }

  lemma FailStep(cfg: Config, s: System, initial: map<Id, MerchantBalance>, req: Req)
    requires SystemOk(cfg, s, initial)
    ensures SystemOk(cfg, Next(cfg, s, CreateFail(req)), initial)
  {
    var s' := Next(cfg, s, CreateFail(req));
    if req in s.requests && (s.requests[req].Blocked? || s.requests[req].Refused?) {
      var id := s.requests[req].payment.id;
      assert CreatorOk(s.db, s.requests[req].payment);
      FailKeeps(cfg, s.db, s.skipped, initial, id);
      FailRows(s.db, id);
      TablesStep(s, s', Some(id));
    }
  }

  lemma FinishStep(cfg: Config, s: System, initial: map<Id, MerchantBalance>, req: Req, capture: Stamp, fee: Stamp)
    requires SystemOk(cfg, s, initial)
    ensures SystemOk(cfg, Next(cfg, s, CreateFinish(req, capture, fee)), initial)
  {
    if req in s.requests && s.requests[req].Approved? {
      var p := s.requests[req].payment;
      assert PaymentOk(cfg.rate, s.db, s.skipped, p.id);
      if FinishCharge(cfg, s.db, p, capture, fee).Ok? {
        FinishKeeps(cfg, s.db, s.skipped, initial, p, capture, fee);
      }
      FinishRequests(cfg, s, req, capture, fee);
    }
  }

  lemma FinishRequests(cfg: Config, s: System, req: Req, capture: Stamp, fee: Stamp)
    requires CreatorsOk(s) && ChargesOk(s) && RepliesOk(s)
    requires req in s.requests && s.requests[req].Approved?
    requires s.db.payments[s.requests[req].payment.id].id == s.requests[req].payment.id
    ensures var s' := Next(cfg, s, CreateFinish(req, capture, fee));
            CreatorsOk(s') && ChargesOk(s') && RepliesOk(s')
  {
    var p, s' := s.requests[req].payment, Next(cfg, s, CreateFinish(req, capture, fee));
    if FinishCharge(cfg, s.db, p, capture, fee).Ok? {
      FinishRows(cfg, s.db, p, capture, fee);
      FinishedReply(s.db, s'.db, p);
      TablesStep(s, s', Some(p.id));
    } else {
      TablesStep(s, s', None);
    }
  }

  lemma FinishedReply(t: Tables, u: Tables, p: Payment)
    requires CreatorOk(t, p) && RowsKept(t, u, Some(p.id))
    ensures ReplyOk(u, Reply(p.merchant, p.key, p.id))
  {
  }

  lemma CaptureStep(cfg: Config, s: System, initial: map<Id, MerchantBalance>, req: Req, capture: Stamp, fee: Stamp)
    requires SystemOk(cfg, s, initial)
    ensures SystemOk(cfg, Next(cfg, s, CaptureFinish(req, capture, fee)), initial)
  {
    var s' := Next(cfg, s, CaptureFinish(req, capture, fee));
    if req in s.requests && s.requests[req].CaptureGranted? {
      var pc := s.requests[req];
      assert PaymentOk(cfg.rate, s.db, s.skipped, pc.id);
      if CapturePayment(cfg, s.db, pc.id, pc.merchant, pc.amount, capture, fee).Ok? {
        CaptureKeeps(cfg, s.db, s.skipped, initial, pc.id, pc.merchant, pc.amount, capture, fee);
        CaptureRows(cfg, s.db, pc.id, pc.merchant, pc.amount, capture, fee);
      }
      TablesStep(s, s', None);
    }
  }

  lemma RefundStartStep(
    cfg: Config, s: System, initial: map<Id, MerchantBalance>, req: Req, request: RefundRequest, stamp: Stamp)
    requires SystemOk(cfg, s, initial)
    ensures SystemOk(cfg, Next(cfg, s, RefundStart(req, request, stamp)), initial)
  {
    if req !in s.requests && CreateRefund(cfg, s.db, request, stamp).Ok? {
      var (u, r) := CreateRefund(cfg, s.db, request, stamp).value;
      RefundKeeps(cfg, s.db, s.skipped, initial, request, stamp);
      RefundRowsKept(cfg, s.db, request, stamp);
      var mid := s.(db := u, skipped := SkippedAfter(s.db, s.skipped, r));
      TablesStep(s, mid, None);
      MoveStep(mid, At(mid, req, RefundSent(r)), req, RefundSent(r));
    }
  }

  lemma RefundVerdictStep(cfg: Config, s: System, initial: map<Id, MerchantBalance>, req: Req, succeeded: bool)
    requires SystemOk(cfg, s, initial)
    ensures SystemOk(cfg, Next(cfg, s, RefundVerdict(req, succeeded)), initial)
  {
    var s' := Next(cfg, s, RefundVerdict(req, succeeded));
    if req in s.requests && s.requests[req].RefundSent? {
      var r := s.requests[req].refund;
      RefundStatusKeeps(cfg, s.db, s.skipped, initial, r.id, if succeeded then RefundSucceeded else RefundFailed);
      var mid := s.(db := s'.db);
      TablesStep(s, mid, None);
      if succeeded {
        MoveStep(mid, s', req, RefundDone(r));
      } else {
        TablesStep(mid, s', None);
      }
    }
  }

  lemma CancelStep(cfg: Config, s: System, initial: map<Id, MerchantBalance>, id: Id, merchant: Id)
    requires SystemOk(cfg, s, initial)
    ensures SystemOk(cfg, Next(cfg, s, Cancel(id, merchant)), initial)
  {
    if CancelPayment(s.db, id, merchant).Ok? {
      CancelKeeps(cfg, s.db, s.skipped, initial, id, merchant);
      CancelRequests(cfg, s, id, merchant);
    }
  }

  lemma CancelRequests(cfg: Config, s: System, id: Id, merchant: Id)
    requires CreatorsOk(s) && ChargesOk(s) && RepliesOk(s)
    requires CancelPayment(s.db, id, merchant).Ok?
    ensures var s' := Next(cfg, s, Cancel(id, merchant));
            CreatorsOk(s') && ChargesOk(s') && RepliesOk(s')
  {
    CancelRows(s.db, id, merchant);
    TablesStep(s, Next(cfg, s, Cancel(id, merchant)), None);
  }

  lemma DisputeStep(cfg: Config, s: System, initial: map<Id, MerchantBalance>, d: Dispute)
    requires SystemOk(cfg, s, initial)
    ensures SystemOk(cfg, Next(cfg, s, OpenDispute(d)), initial)
  {
    if CreateDispute(s.db, d).Ok? {
      DisputeKeeps(cfg, s.db, s.skipped, initial, d);
      DisputeRequests(cfg, s, d);
    }
  }

  lemma DisputeRequests(cfg: Config, s: System, d: Dispute)
    requires CreatorsOk(s) && ChargesOk(s) && RepliesOk(s) && CreateDispute(s.db, d).Ok?
    ensures var s' := Next(cfg, s, OpenDispute(d));
            CreatorsOk(s') && ChargesOk(s') && RepliesOk(s')
  {
    DisputeRows(s.db, d);
    TablesStep(s, Next(cfg, s, OpenDispute(d)), None);
  }

  lemma SettleStep(
    cfg: Config, s: System, initial: map<Id, MerchantBalance>, id: Id, merchant: Id, locked: set<Id>, now: int)
    requires SystemOk(cfg, s, initial)
    ensures SystemOk(cfg, Next(cfg, s, Settle(id, merchant, locked, now)), initial)
  {
    if SettleMerchant(cfg, s.db, id, merchant, locked, now).Ok? {
      SettleKeeps(cfg, s.db, s.skipped, initial, id, merchant, locked, now);
      SettleRequests(cfg, s, id, merchant, locked, now);
    }
  }

  lemma SettleRequests(cfg: Config, s: System, id: Id, merchant: Id, locked: set<Id>, now: int)
    requires CreatorsOk(s) && ChargesOk(s) && RepliesOk(s)
    requires SettleMerchant(cfg, s.db, id, merchant, locked, now).Ok?
    ensures var s' := Next(cfg, s, Settle(id, merchant, locked, now));
            CreatorsOk(s') && ChargesOk(s') && RepliesOk(s')
  {
    SettleRows(cfg, s.db, id, merchant, locked, now);
    TablesStep(s, Next(cfg, s, Settle(id, merchant, locked, now)), None);
  }

  lemma RefundNotifyStep(cfg: Config, s: System, initial: map<Id, MerchantBalance>, req: Req)
    requires SystemOk(cfg, s, initial)
    ensures SystemOk(cfg, Next(cfg, s, RefundNotify(req)), initial)
  {
    if req in s.requests && s.requests[req].RefundDone? {
      RefundNoticeKeeps(cfg, s.db, s.skipped, initial, s.requests[req].refund);
      TablesStep(s, Next(cfg, s, RefundNotify(req)), None);
    }
  }

  lemma CrashStep(cfg: Config, s: System, initial: map<Id, MerchantBalance>, req: Req)
    requires SystemOk(cfg, s, initial)
    ensures SystemOk(cfg, Next(cfg, s, Crash(req)), initial)
  {
    TablesStep(s, Drop(s, req), None);
  }

  lemma VerdictStep(cfg: Config, s: System, initial: map<Id, MerchantBalance>, req: Req, blocked: bool)
    requires SystemOk(cfg, s, initial)
    ensures SystemOk(cfg, Next(cfg, s, FraudVerdict(req, blocked)), initial)
  {
    if req in s.requests && s.requests[req].Screening? {
      var p := s.requests[req].payment;
      MoveStep(s, Next(cfg, s, FraudVerdict(req, blocked)), req, if blocked then Blocked(p) else Charging(p));
    }
  }

  lemma CaptureStartStep(
    cfg: Config, s: System, initial: map<Id, MerchantBalance>, req: Req, id: Id, merchant: Id, amount: Option<int>)
    requires SystemOk(cfg, s, initial)
    ensures SystemOk(cfg, Next(cfg, s, CaptureStart(req, id, merchant, amount)), initial)
  {
    var s' := Next(cfg, s, CaptureStart(req, id, merchant, amount));
    if s' != s {
      MoveStep(s, s', req, CaptureAsked(id, merchant, amount));
    }
  }

  lemma CaptureVerdictStep(cfg: Config, s: System, initial: map<Id, MerchantBalance>, req: Req, granted: bool)
    requires SystemOk(cfg, s, initial)
    ensures SystemOk(cfg, Next(cfg, s, CaptureVerdict(req, granted)), initial)
  {
    if req in s.requests && s.requests[req].CaptureAsked? {
      var pc, s' := s.requests[req], Next(cfg, s, CaptureVerdict(req, granted));
      if granted {
        MoveStep(s, s', req, CaptureGranted(pc.id, pc.merchant, pc.amount));
      } else {
        TablesStep(s, s', None);
      }
    }
  }

  lemma StepKeeps(cfg: Config, s: System, initial: map<Id, MerchantBalance>, a: Action)
    requires SystemOk(cfg, s, initial)
    ensures SystemOk(cfg, Next(cfg, s, a), initial)
  {
    match a
    case CreateInsert(req, payment) => InsertStep(cfg, s, initial, req, payment);
    case ChargeCall(req, approved) => ChargeStep(cfg, s, initial, req, approved);
    case CreateFail(req) => FailStep(cfg, s, initial, req);
    case CreateFinish(req, capture, fee) => FinishStep(cfg, s, initial, req, capture, fee);
    case CaptureFinish(req, capture, fee) => CaptureStep(cfg, s, initial, req, capture, fee);
    case RefundStart(req, request, stamp) => RefundStartStep(cfg, s, initial, req, request, stamp);
    case RefundVerdict(req, succeeded) => RefundVerdictStep(cfg, s, initial, req, succeeded);
    case FraudVerdict(req, blocked) => VerdictStep(cfg, s, initial, req, blocked);
    case CaptureStart(req, id, merchant, amount) => CaptureStartStep(cfg, s, initial, req, id, merchant, amount);
    case CaptureVerdict(req, granted) => CaptureVerdictStep(cfg, s, initial, req, granted);
    case RefundNotify(req) => RefundNotifyStep(cfg, s, initial, req);
    case Cancel(id, merchant) => CancelStep(cfg, s, initial, id, merchant);
    case OpenDispute(d) => DisputeStep(cfg, s, initial, d);
    case Settle(id, merchant, locked, now) => SettleStep(cfg, s, initial, id, merchant, locked, now);
    case Crash(req) => CrashStep(cfg, s, initial, req);
  }

  lemma StartOk(cfg: Config, initial: map<Id, MerchantBalance>)
    ensures SystemOk(cfg, Start(initial), initial)
  {
  }

  lemma {:induction false} PassesOk(
    cfg: Config, initial: map<Id, MerchantBalance>, start: System, run: seq<Action>, states: seq<System>)
    requires Passes(cfg, start, run, states) && SystemOk(cfg, start, initial)
    ensures SystemOk(cfg, states[|run|], initial)
    decreases |run|
  {
    if run != [] {
      PassesFront(cfg, start, run, states);
      PassesOk(cfg, initial, start, run[..|run| - 1], states[..|run|]);
      StepKeeps(cfg, states[|run| - 1], initial, run[|run| - 1]);
    }
  }

  /** The invariant holds in every reachable state. */
  lemma ReachedOk(cfg: Config, initial: map<Id, MerchantBalance>, s: System)
    requires Reached(cfg, initial, s)
    ensures SystemOk(cfg, s, initial)
  {
    var run, states :| Passes(cfg, Start(initial), run, states) && states[|run|] == s;
    StartOk(cfg, initial);
    PassesOk(cfg, initial, Start(initial), run, states);
  }
}
