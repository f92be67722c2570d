/** The payment protocol as a state machine: any number of requests, settlement workers and disputes take
    committed transactions in any order, and any request can vanish between two of its transactions. */
module Protocol {
  import opened Models
  import opened Ledger
  import opened Schema
  import opened Transactions

  type Req = nat

  /** Where an in-flight request stands between two of its transactions. */
  datatype Pc =
    | Screening(payment: Payment)
    | Blocked(payment: Payment)
    | Charging(payment: Payment)
    | Approved(payment: Payment)
    | Refused(payment: Payment)
    | CaptureAsked(id: Id, merchant: Id, amount: Option<int>)
    | CaptureGranted(id: Id, merchant: Id, amount: Option<int>)
    | RefundSent(refund: Refund)
    | RefundDone(refund: Refund)
  {
    /** Still inside create_payment, after its insert. */
    predicate Creating() {
      Screening? || Blocked? || Charging? || Approved? || Refused?
    }

    /** Whose request it is. */
    function Merchant(): Id {
      match this
      case Screening(p) => p.merchant
      case Blocked(p) => p.merchant
      case Charging(p) => p.merchant
      case Approved(p) => p.merchant
      case Refused(p) => p.merchant
      case CaptureAsked(_, m, _) => m
      case CaptureGranted(_, m, _) => m
      case RefundSent(r) => r.merchant
      case RefundDone(r) => r.merchant
    }
  }

  /** A create_payment call that returned a payment. */
  datatype Reply = Reply(merchant: Id, key: Option<string>, id: Id)

  /** The database, the in-flight requests, and a record of what happened outside it: charges sent to the
      acquirer, replies to callers, and refunds whose row insert was skipped for a taken key. */
  datatype System = System(
    db: Tables,
    requests: map<Req, Pc>,
    charges: seq<Id>,
    replies: seq<Reply>,
    skipped: seq<Refund>)

  datatype Action =
    | CreateInsert(req: Req, payment: Payment)
    | FraudVerdict(req: Req, blocked: bool)
    | ChargeCall(req: Req, approved: bool)
    | CreateFail(req: Req)
    | CreateFinish(req: Req, capture: Stamp, fee: Stamp)
    | CaptureStart(req: Req, id: Id, merchant: Id, amount: Option<int>)
    | CaptureVerdict(req: Req, granted: bool)
    | CaptureFinish(req: Req, capture: Stamp, fee: Stamp)
    | RefundStart(req: Req, refund: RefundRequest, stamp: Stamp)
    | RefundVerdict(req: Req, succeeded: bool)
    | RefundNotify(req: Req)
    | Cancel(id: Id, merchant: Id)
    | OpenDispute(dispute: Dispute)
    | Settle(id: Id, merchant: Id, locked: set<Id>, now: int)
    | Crash(req: Req)

  function Drop(s: System, req: Req): System {
    s.(requests := s.requests - {req})
  }

  function At(s: System, req: Req, pc: Pc): System {
    s.(requests := s.requests[req := pc])
  }

  /** The row create_payment inserts for a request. */
  function NewPayment(p: Payment): Payment {
    p.(status := Created, capturedAmount := None, refundedAmount := 0, settledAt := None)
  }

  /** One committed step; a step that is not enabled, or whose transaction aborts, changes no table. */
  ghost function Next(cfg: Config, s: System, a: Action): System {
    match a
    case CreateInsert(req, payment) =>
      if req in s.requests then s else
        var p := NewPayment(payment);
        (match InsertPaymentIdempotent(s.db, p)
         case Inserted(t) => At(s.(db := Publish(t, PaymentEvent(PaymentCreated, p.id, PaymentsTopic))), req, Screening(p))
         case Existing(id) => s.(replies := s.replies + [Reply(p.merchant, p.key, id)])
         case Rejected => s)
    case FraudVerdict(req, blocked) =>
      if req in s.requests && s.requests[req].Screening? then
        At(s, req, if blocked then Blocked(s.requests[req].payment) else Charging(s.requests[req].payment))
      else s
    case ChargeCall(req, approved) =>
      if req in s.requests && s.requests[req].Charging? then
        var p := s.requests[req].payment;
        At(s.(charges := s.charges + [p.id]), req, if approved then Approved(p) else Refused(p))
      else s
    case CreateFail(req) =>
      if req in s.requests && (s.requests[req].Blocked? || s.requests[req].Refused?) then
        Drop(s.(db := FailPayment(s.db, s.requests[req].payment.id)), req)
      else s
    case CreateFinish(req, capture, fee) =>
      if req in s.requests && s.requests[req].Approved? then
        var p := s.requests[req].payment;
        (match FinishCharge(cfg, s.db, p, capture, fee)
         case Ok(done) => Drop(s.(db := done.0, replies := s.replies + [Reply(p.merchant, p.key, p.id)]), req)
         case Err(_) => Drop(s, req))
      else s
    case CaptureStart(req, id, merchant, amount) =>
      if req !in s.requests && LockPayment(s.db, id, merchant).Ok?
         && s.db.payments[id].status.CanTransitionTo(Captured)
      then At(s, req, CaptureAsked(id, merchant, amount)) else s
    case CaptureVerdict(req, granted) =>
      if req in s.requests && s.requests[req].CaptureAsked? then
        var pc := s.requests[req];
        if granted then At(s, req, CaptureGranted(pc.id, pc.merchant, pc.amount)) else Drop(s, req)
      else s
    case CaptureFinish(req, capture, fee) =>
      if req in s.requests && s.requests[req].CaptureGranted? then
        var pc := s.requests[req];
        (match CapturePayment(cfg, s.db, pc.id, pc.merchant, pc.amount, capture, fee)
         case Ok(done) => Drop(s.(db := done.0), req)
         case Err(_) => Drop(s, req))
      else s
    case RefundStart(req, request, stamp) =>
      if req in s.requests then s else
        (match CreateRefund(cfg, s.db, request, stamp)
         case Ok(done) =>
           var skipped := if RefundKeyTaken(s.db, done.1) then s.skipped + [done.1] else s.skipped;
           At(s.(db := done.0, skipped := skipped), req, RefundSent(done.1))
         case Err(_) => s)
    case RefundVerdict(req, succeeded) =>
      if req in s.requests && s.requests[req].RefundSent? then
        var r := s.requests[req].refund;
        if succeeded
        then At(s.(db := UpdateRefundStatus(s.db, r.id, RefundSucceeded)), req, RefundDone(r))
        else Drop(s.(db := UpdateRefundStatus(s.db, r.id, RefundFailed)), req)
      else s
    case RefundNotify(req) =>
      if req in s.requests && s.requests[req].RefundDone? then
        Drop(s.(db := Publish(s.db, RefundEvent(RefundSucceededEvent, s.requests[req].refund, WebhooksTopic))), req)
      else s
    case Cancel(id, merchant) =>
      (match CancelPayment(s.db, id, merchant)
       case Ok(done) => s.(db := done.0)
       case Err(_) => s)
    case OpenDispute(dispute) =>
      (match CreateDispute(s.db, dispute)
       case Ok(t) => s.(db := t)
       case Err(_) => s)
    case Settle(id, merchant, locked, now) =>
      (match SettleMerchant(cfg, s.db, id, merchant, locked, now)
       case Ok(done) => s.(db := done.0)
       case Err(_) => s)
    case Crash(req) => Drop(s, req)
  }

  /** The system before any payment; merchants may already have balance rows. */
  function Start(balances: map<Id, MerchantBalance>): System {
    System(Tables(map[], [], [], [], balances, [], []), map[], [], [], [])
  }

  /** `states` are the states that a run of steps passes through. */
  ghost predicate Passes(cfg: Config, start: System, run: seq<Action>, states: seq<System>) {
    && |states| == |run| + 1 && states[0] == start
    && forall k {:trigger run[k]} :: 0 <= k < |run| ==> states[k + 1] == Next(cfg, states[k], run[k])
  }

  /** Some run leads from one state to the other. */
  ghost predicate LeadsTo(cfg: Config, s: System, u: System) {
    exists run, states :: Passes(cfg, s, run, states) && states[|run|] == u
  }

  /** Some run from the start, with these balance rows, leads to the state. */
  ghost predicate Reached(cfg: Config, balances: map<Id, MerchantBalance>, s: System) {
    LeadsTo(cfg, Start(balances), s)
  }

  lemma PassesFront(cfg: Config, start: System, run: seq<Action>, states: seq<System>)
    requires run != [] && Passes(cfg, start, run, states)
    ensures Passes(cfg, start, run[..|run| - 1], states[..|run|])
    ensures states[|run|] == Next(cfg, states[|run| - 1], run[|run| - 1])
  {
  }

  lemma PassesSnoc(cfg: Config, start: System, run: seq<Action>, states: seq<System>, a: Action)
    requires Passes(cfg, start, run, states)
    ensures Passes(cfg, start, run + [a], states + [Next(cfg, states[|run|], a)])
  {
  }

  /** Every sequence of steps is a run: it passes through some states. */
  lemma {:induction false} EveryRunPasses(cfg: Config, start: System, run: seq<Action>) returns (states: seq<System>)
    ensures Passes(cfg, start, run, states)
  {
    if run == [] {
      states := [start];
    } else {
      var front, last := run[..|run| - 1], run[|run| - 1];
      var before := EveryRunPasses(cfg, start, front);
      PassesSnoc(cfg, start, front, before, last);
      states := before + [Next(cfg, before[|front|], last)];
      assert front + [last] == run;
    }
  }

  lemma LeadsToItself(cfg: Config, s: System)
    ensures LeadsTo(cfg, s, s)
  {
    var none: seq<Action>, here := [], [s];
    assert Passes(cfg, s, none, here) && here[|none|] == s;
  }

  /** A reached state's successors are reached. */
  lemma StepLeads(cfg: Config, s: System, u: System, a: Action)
    requires LeadsTo(cfg, s, u)
    ensures LeadsTo(cfg, s, Next(cfg, u, a))
  {
    var run, states :| Passes(cfg, s, run, states) && states[|run|] == u;
    PassesSnoc(cfg, s, run, states, a);
    assert (states + [Next(cfg, u, a)])[|run + [a]|] == Next(cfg, u, a);
  }

  lemma {:induction false} LeadsAlong(cfg: Config, s: System, u: System, run: seq<Action>, states: seq<System>)
    requires LeadsTo(cfg, s, u) && Passes(cfg, u, run, states)
    ensures LeadsTo(cfg, s, states[|run|])
    decreases |run|
  {
    if run != [] {
      PassesFront(cfg, u, run, states);
      LeadsAlong(cfg, s, u, run[..|run| - 1], states[..|run|]);
      StepLeads(cfg, s, states[|run| - 1], run[|run| - 1]);
    }
  }

  lemma LeadsOn(cfg: Config, s: System, u: System, v: System)
    requires LeadsTo(cfg, s, u) && LeadsTo(cfg, u, v)
    ensures LeadsTo(cfg, s, v)
  {
    var run, states :| Passes(cfg, u, run, states) && states[|run|] == v;
    LeadsAlong(cfg, s, u, run, states);
  }
}
