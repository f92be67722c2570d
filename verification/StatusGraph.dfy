/** Which status writes respect the transition table, and which do not. */
module StatusGraph {
  import opened Models
  import opened Ledger
  import opened Schema
  import opened Transactions
  import opened Protocol
  import opened Invariant
  import opened Preservation
  import opened Runs

  function Rank(status: PaymentStatus): nat {
    match status
    case Created => 6
    case Pending => 5
    case RequiresAction => 4
    case Authorized => 3
    case Captured => 2
    case Settled => 1
    case Failed | Cancelled | Refunded | Disputed => 0
  }

  /** A path of valid transitions leads from one status to the other. */
  ghost predicate Leads(from: PaymentStatus, to: PaymentStatus)
    decreases Rank(from)
  {
    from == to || exists next :: next in from.ValidTransitions() && Leads(next, to)
  }

  lemma LeadsVia(from: PaymentStatus, next: PaymentStatus, to: PaymentStatus)
    requires from.CanTransitionTo(next) && Leads(next, to)
    ensures Leads(from, to)
  {
  }

  /** Which statuses a status can still become. */
  predicate Becomes(from: PaymentStatus, to: PaymentStatus) {
    match from
    case Created => to != Refunded
    case Pending => to != Refunded && to != Created
    case RequiresAction => to != Refunded && to != Created && to != Pending
    case Authorized => to == Authorized || to == Captured || to == Settled || to == Disputed || to == Cancelled
    case Captured => to == Captured || to == Settled || to == Disputed
    case Settled => to == Settled || to == Disputed
    case Failed | Cancelled | Refunded | Disputed => to == from
  }

  lemma BecomesVia(from: PaymentStatus, next: PaymentStatus, to: PaymentStatus)
    requires from.CanTransitionTo(next) && Becomes(next, to)
    ensures Becomes(from, to) && Rank(next) < Rank(from)
  {
  }

  lemma {:induction false} LeadsBecomes(from: PaymentStatus, to: PaymentStatus)
    requires Leads(from, to)
    ensures Becomes(from, to)
    decreases Rank(from)
  {
    if from != to {
      var next :| next in from.ValidTransitions() && Leads(next, to);
      LeadsBecomes(next, to);
      BecomesVia(from, next, to);
    }
  }

  lemma {:induction false} BecomesLeads(from: PaymentStatus, to: PaymentStatus)
    requires Becomes(from, to)
    ensures Leads(from, to)
    decreases Rank(from)
  {
    if from != to {
      BecomesLeads(Toward(from, to), to);
      LeadsVia(from, Toward(from, to), to);
    }
  }

  /** The closure of the transition table: nothing becomes Refunded, and a settled payment is at most disputed. */
  lemma ClosureExact(from: PaymentStatus, to: PaymentStatus)
    ensures Leads(from, to) <==> Becomes(from, to)
  {
    if Leads(from, to) {
      LeadsBecomes(from, to);
    }
    if Becomes(from, to) {
      BecomesLeads(from, to);
    }
  }

  /** An edge on the way. */
  function Toward(from: PaymentStatus, to: PaymentStatus): PaymentStatus {
    match from
    case Created => Pending
    case Pending =>
      if to == Cancelled then RequiresAction else if to == Failed || to == RequiresAction then to else Authorized
    case RequiresAction => if to == Cancelled || to == Failed then to else Authorized
    case Authorized => if to == Cancelled then to else Captured
    case Captured => if to == Disputed then to else Settled
    case Settled | Failed | Cancelled | Refunded | Disputed => Disputed
  }

  /** How one step may rewrite the status column of one row. */
  ghost predicate Rewrites(a: Action, from: PaymentStatus, to: PaymentStatus) {
    || (a.CreateFinish? && from == Created && (to == Captured || to == Authorized))
    || (a.CaptureFinish? && from == Authorized && to == Captured)
    || (a.CreateFail? && to == Failed && (from == Created || from == Cancelled || from == Disputed))
    || (a.Cancel? && from.CanTransitionTo(Cancelled) && to == Cancelled)
    || (a.OpenDispute? && to == Disputed)
    || (a.Settle? && from == Captured && to == Settled)
  }

  /** Whose step it is: the request's own payment, or any for the steps that come from outside. */
  predicate Caused(s: System, a: Action, id: Id, to: PaymentStatus) {
    match a
    case CreateFinish(req, _, _) =>
      && req in s.requests && s.requests[req].Approved? && s.requests[req].payment.id == id
      && (to == Captured <==> s.requests[req].payment.captureMethod == Automatic)
    case CreateFail(req) =>
      && req in s.requests && (s.requests[req].Blocked? || s.requests[req].Refused?) && s.requests[req].payment.id == id
    case CaptureFinish(req, _, _) => req in s.requests && s.requests[req].CaptureGranted? && s.requests[req].id == id
    case _ => true
  }

  /** The row keeps its capture unless its status changes, and keeps its capture method. */
  predicate SameCapture(row: Payment, after: Payment) {
    && after.captureMethod == row.captureMethod
    && (after.capturedAmount != row.capturedAmount ==> after.status == Captured != row.status)
  }

  lemma ChargeWalk(from: PaymentStatus, mode: CaptureMethod)
    requires Walk(from, ChargePath(mode)).Ok?
    ensures from == Created && Walk(from, ChargePath(mode)).value == if mode == Automatic then Captured else Authorized
  {
    WalkEnds(from, ChargePath(mode));
  }

  lemma FinishRewrites(cfg: Config, t: Tables, request: Payment, capture: Stamp, fee: Stamp, id: Id)
    requires FinishCharge(cfg, t, request, capture, fee).Ok?
    requires id in t.payments && request.id in t.payments && t.payments[request.id].id == request.id
    ensures var u := FinishCharge(cfg, t, request, capture, fee).value.0;
            && id in u.payments && SameCapture(t.payments[id], u.payments[id])
            && (u.payments[id].status != t.payments[id].status ==>
                  && t.payments[id].status == Created && id == request.id
                  && u.payments[id].status == if request.captureMethod == Automatic then Captured else Authorized)
  {
    FinishIsCommit(cfg, t, request, capture, fee);
    ChargeWalk(t.payments[request.id].status, request.captureMethod);
    var row := FinishCharge(cfg, t, request, capture, fee).value.1;
    ChargedRows(cfg, t, row, row.amount, capture, fee);
  }

  lemma CaptureRewrites(
    cfg: Config, t: Tables, id: Id, merchant: Id, amount: Option<int>, capture: Stamp, fee: Stamp, other: Id)
    requires CapturePayment(cfg, t, id, merchant, amount, capture, fee).Ok?
    requires other in t.payments && t.payments[id].id == id
    ensures var u := CapturePayment(cfg, t, id, merchant, amount, capture, fee).value.0;
            && other in u.payments && SameCapture(t.payments[other], u.payments[other])
            && (u.payments[other].status != t.payments[other].status ==>
                  other == id && t.payments[other].status == Authorized && u.payments[other].status == Captured)
  {
    CaptureIsCommit(cfg, t, id, merchant, amount, capture, fee);
    var row := CapturePayment(cfg, t, id, merchant, amount, capture, fee).value.1;
    ChargedRows(cfg, t, row, row.Charged(), capture, fee);
  }

  lemma RefundRewritesNothing(cfg: Config, t: Tables, request: RefundRequest, stamp: Stamp, id: Id)
    requires CreateRefund(cfg, t, request, stamp).Ok? && id in t.payments
    ensures var u := CreateRefund(cfg, t, request, stamp).value.0;
            && id in u.payments && u.payments[id].status == t.payments[id].status
            && SameCapture(t.payments[id], u.payments[id])
  {
  }

  lemma CancelRewrites(t: Tables, id: Id, merchant: Id, other: Id)
    requires CancelPayment(t, id, merchant).Ok? && other in t.payments
    ensures var u := CancelPayment(t, id, merchant).value.0;
            && other in u.payments && SameCapture(t.payments[other], u.payments[other])
            && (u.payments[other].status != t.payments[other].status ==>
                  t.payments[other].status.CanTransitionTo(Cancelled) && u.payments[other].status == Cancelled)
  {
  }

  lemma StatusWrites(cfg: Config, s: System, initial: map<Id, MerchantBalance>, a: Action, id: Id)
    requires SystemOk(cfg, s, initial) && id in s.db.payments
    ensures var u := Next(cfg, s, a).db;
            && id in u.payments && SameCapture(s.db.payments[id], u.payments[id])
            && (u.payments[id].status != s.db.payments[id].status ==>
                  Caused(s, a, id, u.payments[id].status) && Rewrites(a, s.db.payments[id].status, u.payments[id].status))
  {
    if a.CreateFinish? && a.req in s.requests && s.requests[a.req].Approved? {
      var p := s.requests[a.req].payment;
      assert CreatorOk(s.db, p);
      assert PaymentOk(cfg.rate, s.db, s.skipped, p.id);
      if FinishCharge(cfg, s.db, p, a.capture, a.fee).Ok? {
        FinishRewrites(cfg, s.db, p, a.capture, a.fee, id);
      }
    } else if a.CaptureFinish? && a.req in s.requests && s.requests[a.req].CaptureGranted? {
      var pc := s.requests[a.req];
      if CapturePayment(cfg, s.db, pc.id, pc.merchant, pc.amount, a.capture, a.fee).Ok? {
        assert PaymentOk(cfg.rate, s.db, s.skipped, pc.id);
        CaptureRewrites(cfg, s.db, pc.id, pc.merchant, pc.amount, a.capture, a.fee, id);
      }
    } else if a.RefundStart? && CreateRefund(cfg, s.db, a.refund, a.stamp).Ok? {
      RefundRewritesNothing(cfg, s.db, a.refund, a.stamp, id);
    } else if a.Cancel? && CancelPayment(s.db, a.id, a.merchant).Ok? {
      CancelRewrites(s.db, a.id, a.merchant, id);
    } else if a.Settle? && SettleMerchant(cfg, s.db, a.id, a.merchant, a.locked, a.now).Ok? {
      SettleRewrites(cfg, s.db, a.id, a.merchant, a.locked, a.now, id);
    } else {
      OtherWrites(cfg, s, a, id);
    }
  }

  lemma SettleRewrites(cfg: Config, t: Tables, id: Id, merchant: Id, locked: set<Id>, now: int, other: Id)
    requires SettleMerchant(cfg, t, id, merchant, locked, now).Ok? && other in t.payments
    ensures var u := SettleMerchant(cfg, t, id, merchant, locked, now).value.0;
            && other in u.payments && SameCapture(t.payments[other], u.payments[other])
            && (u.payments[other].status != t.payments[other].status ==>
                  t.payments[other].status == Captured && u.payments[other].status == Settled)
  {
    SettleCommits(cfg, t, id, merchant, locked, now);
  }

  lemma OtherWrites(cfg: Config, s: System, a: Action, id: Id)
    requires CreatorsOk(s) && id in s.db.payments
    requires a.Settle? ==> SettleMerchant(cfg, s.db, a.id, a.merchant, a.locked, a.now).Err?
    requires a.CreateFinish? ==> !(a.req in s.requests && s.requests[a.req].Approved?)
    requires a.CaptureFinish? ==> !(a.req in s.requests && s.requests[a.req].CaptureGranted?)
    requires a.RefundStart? ==> CreateRefund(cfg, s.db, a.refund, a.stamp).Err?
    requires a.Cancel? ==> CancelPayment(s.db, a.id, a.merchant).Err?
    ensures var u := Next(cfg, s, a).db;
            && id in u.payments && SameCapture(s.db.payments[id], u.payments[id])
            && (u.payments[id].status != s.db.payments[id].status ==>
                  Caused(s, a, id, u.payments[id].status) && Rewrites(a, s.db.payments[id].status, u.payments[id].status))
  {
    if a.CreateFail? && a.req in s.requests && s.requests[a.req].Creating() {
      assert CreatorOk(s.db, s.requests[a.req].payment);
    }
  }

  lemma RewritesLead(a: Action, from: PaymentStatus, to: PaymentStatus)
    requires Rewrites(a, from, to) && from != to
    ensures Leads(from, to) <==> from.ValidTransitions() != []
    ensures from.ValidTransitions() == [] ==>
              || (a.CreateFail? && to == Failed && (from == Cancelled || from == Disputed))
              || (a.OpenDispute? && to == Disputed)
  {
    if from.ValidTransitions() == [] {
      DeadEnd(from, to);
    } else {
      LiveWrite(a, from, to);
    }
  }

  lemma DeadEnd(from: PaymentStatus, to: PaymentStatus)
    requires from.ValidTransitions() == [] && from != to
    ensures !Leads(from, to)
  {
  }

  lemma LiveWrite(a: Action, from: PaymentStatus, to: PaymentStatus)
    requires Rewrites(a, from, to) && from.ValidTransitions() != []
    ensures Leads(from, to)
  {
    BecomesLeads(from, to);
  }

  /** A status change stays inside the transition table if and only if the old status has successors; the
      only writes over a dead end are the creator's late failure and a dispute. */
  lemma StatusChanges(cfg: Config, initial: map<Id, MerchantBalance>, s: System, a: Action, id: Id)
    requires Reached(cfg, initial, s) && id in s.db.payments
    ensures id in Next(cfg, s, a).db.payments
    ensures var from, to := s.db.payments[id].status, Next(cfg, s, a).db.payments[id].status;
            from != to ==>
              && (Leads(from, to) <==> from.ValidTransitions() != [])
              && (from.ValidTransitions() == [] ==>
                    || (a.CreateFail? && to == Failed && (from == Cancelled || from == Disputed))
                    || (a.OpenDispute? && to == Disputed))
  {
    ReachedOk(cfg, initial, s);
    StatusWrites(cfg, s, initial, a, id);
    if Next(cfg, s, a).db.payments[id].status != s.db.payments[id].status {
      RewritesLead(a, s.db.payments[id].status, Next(cfg, s, a).db.payments[id].status);
    }
  }

  lemma CancelWhileScreening(cfg: Config, s: System, req: Req, p: Payment)
    requires req in s.requests && s.requests[req] == Screening(p)
    requires LockPayment(s.db, p.id, p.merchant).Ok? && s.db.payments[p.id].status == Created
    ensures var s1 := Next(cfg, s, Cancel(p.id, p.merchant));
            var s2 := Next(cfg, s1, FraudVerdict(req, true));
            var s3 := Next(cfg, s2, CreateFail(req));
            && p.id in s2.db.payments && s2.db.payments[p.id].status == Cancelled
            && p.id in s3.db.payments && s3.db.payments[p.id].status == Failed
  {
    assert Walk(Created, [Cancelled]) == Ok(Cancelled) by {
      assert [Cancelled][1..] == [];
    }
  }

  /** The race that leaves the table: a merchant cancels while the fraud check still runs. */
  lemma FailedOverCancelled(cfg: Config, initial: map<Id, MerchantBalance>, p: Payment) returns (s: System)
    requires p.amount > 0
    ensures Reached(cfg, initial, s)
    ensures p.id in s.db.payments && s.db.payments[p.id].status == Cancelled
    ensures var u := Next(cfg, s, CreateFail(0));
            p.id in u.db.payments && u.db.payments[p.id].status == Failed && !Leads(Cancelled, Failed)
  {
    var s0, insert := Start(initial), CreateInsert(0, p);
    var s1 := Next(cfg, s0, insert);
    assert s1.requests == map[0 := Screening(NewPayment(p))];
    CancelWhileScreening(cfg, s1, 0, NewPayment(p));
    s := ThreeSteps(cfg, s0, insert, Cancel(p.id, p.merchant), FraudVerdict(0, true));
  }

  lemma ThreeSteps(cfg: Config, s: System, a: Action, b: Action, c: Action) returns (u: System)
    ensures u == Next(cfg, Next(cfg, Next(cfg, s, a), b), c) && LeadsTo(cfg, s, u)
  {
    u := Next(cfg, Next(cfg, Next(cfg, s, a), b), c);
    LeadsToItself(cfg, s);
    StepLeads(cfg, s, s, a);
    StepLeads(cfg, s, Next(cfg, s, a), b);
    StepLeads(cfg, s, Next(cfg, Next(cfg, s, a), b), c);
  }
}
