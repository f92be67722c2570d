/** What the fraud check and the acquirer answered in a run, and what the tables make of their answers
    (crates/payment-service/src/orchestrator.rs). */
module Verdicts {
  import opened Models
  import opened Sums
  import opened Ledger
  import opened Schema
  import opened Transactions
  import opened Protocol
  import opened Invariant
  import opened Runs
  import opened StatusGraph

  datatype Verdict =
    | FraudAnswer(id: Id, blocked: bool)
    | ChargeAnswer(id: Id, approved: bool)
    | CaptureAnswer(id: Id, granted: bool)
    | RefundAnswer(id: Id, succeeded: bool)

  /** The answer that a step brings, if its request waits for one. */
  function Heard(s: System, a: Action): seq<Verdict> {
    match a
    case FraudVerdict(req, blocked) =>
      if req in s.requests && s.requests[req].Screening? then [FraudAnswer(s.requests[req].payment.id, blocked)] else []
    case ChargeCall(req, approved) =>
      if req in s.requests && s.requests[req].Charging? then [ChargeAnswer(s.requests[req].payment.id, approved)] else []
    case CaptureVerdict(req, granted) =>
      if req in s.requests && s.requests[req].CaptureAsked? then [CaptureAnswer(s.requests[req].id, granted)] else []
    case RefundVerdict(req, succeeded) =>
      if req in s.requests && s.requests[req].RefundSent? then [RefundAnswer(s.requests[req].refund.id, succeeded)] else []
    case _ => []
  }

  /** The answers of a run, in order. */
  function Answers(run: seq<Action>, states: seq<System>): seq<Verdict>
    requires |states| == |run| + 1
  {
    if run == [] then []
    else
      var last := |run| - 1;
      Answers(run[..last], states[..|run|]) + Heard(states[last], run[last])
  }

  // ---------- payments ----------

  predicate NoFraudAnswer(said: seq<Verdict>, id: Id) {
    FraudAnswer(id, true) !in said && FraudAnswer(id, false) !in said
  }

  predicate NoChargeAnswer(said: seq<Verdict>, id: Id) {
    ChargeAnswer(id, true) !in said && ChargeAnswer(id, false) !in said
  }

  predicate NoCaptureAnswer(said: seq<Verdict>, id: Id) {
    CaptureAnswer(id, true) !in said && CaptureAnswer(id, false) !in said
  }

  /** Each answer came at most one way, a charge was sent only after the fraud check let it pass, and once, and a
      capture only after the charge was approved. */
  predicate AnswersOk(s: System, said: seq<Verdict>, id: Id) {
    && !(FraudAnswer(id, true) in said && FraudAnswer(id, false) in said)
    && !(ChargeAnswer(id, true) in said && ChargeAnswer(id, false) in said)
    && (NoChargeAnswer(said, id) || FraudAnswer(id, false) in said)
    && (NoCaptureAnswer(said, id) || ChargeAnswer(id, true) in said)
    && ChargeCalls(s, id) == (if NoChargeAnswer(said, id) then 0 else 1)
  }

  /** The row says no more than the answers. */
  predicate RowHeeds(said: seq<Verdict>, p: Payment, id: Id) {
    && (p.status == Failed ==> FraudAnswer(id, true) in said || ChargeAnswer(id, false) in said)
    && (p.status == Authorized || p.capturedAmount.Some? ==> ChargeAnswer(id, true) in said)
    && (p.capturedAmount.Some? && p.captureMethod == Manual ==> CaptureAnswer(id, true) in said)
  }

  /** A request stands where the answers to it have brought it. */
  predicate RequestHeeds(said: seq<Verdict>, pc: Pc) {
    match pc
    case Screening(p) => NoFraudAnswer(said, p.id) && NoChargeAnswer(said, p.id)
    case Blocked(p) => FraudAnswer(p.id, true) in said && NoChargeAnswer(said, p.id)
    case Charging(p) => FraudAnswer(p.id, false) in said && NoChargeAnswer(said, p.id)
    case Approved(p) => ChargeAnswer(p.id, true) in said
    case Refused(p) => ChargeAnswer(p.id, false) in said
    case CaptureAsked(id, _, _) => ChargeAnswer(id, true) in said
    case CaptureGranted(id, _, _) => ChargeAnswer(id, true) in said && CaptureAnswer(id, true) in said
    case _ => true
  }

  ghost predicate Heeds(s: System, said: seq<Verdict>) {
    && (forall id :: AnswersOk(s, said, id))
    && (forall id :: id in s.db.payments ==> RowHeeds(said, s.db.payments[id], id))
    && (forall id :: id !in s.db.payments ==> NoFraudAnswer(said, id) && NoChargeAnswer(said, id))
    && (forall r :: r in s.requests ==> RequestHeeds(said, s.requests[r]))
  }

  /** Requests that wait on one payment's answers are that payment's one creator. */
  lemma OthersHeed(s: System, said: seq<Verdict>, req: Req, verdict: Verdict)
    requires CreatorsOk(s) && Heeds(s, said) && req in s.requests && s.requests[req].Creating()
    requires verdict.id == s.requests[req].payment.id && (verdict.FraudAnswer? || verdict.ChargeAnswer?)
    ensures forall r :: r in s.requests && r != req ==> RequestHeeds(said + [verdict], s.requests[r])
  {
    forall r | r in s.requests && r != req ensures RequestHeeds(said + [verdict], s.requests[r]) {
      assert RequestHeeds(said, s.requests[r]);
    }
  }

  lemma FraudHeeds(cfg: Config, s: System, said: seq<Verdict>, req: Req, blocked: bool)
    requires CreatorsOk(s) && Heeds(s, said) && req in s.requests && s.requests[req].Screening?
    ensures Heeds(Next(cfg, s, FraudVerdict(req, blocked)), said + [FraudAnswer(s.requests[req].payment.id, blocked)])
  {
    var u, p := Next(cfg, s, FraudVerdict(req, blocked)), s.requests[req].payment;
    var heard := said + [FraudAnswer(p.id, blocked)];
    assert RequestHeeds(said, s.requests[req]) && CreatorOk(s.db, p);
    forall id ensures AnswersOk(u, heard, id) {
      assert AnswersOk(s, said, id);
    }
    OthersHeed(s, said, req, FraudAnswer(p.id, blocked));
  }

  lemma ChargeHeeds(cfg: Config, s: System, said: seq<Verdict>, req: Req, approved: bool)
    requires CreatorsOk(s) && Heeds(s, said) && req in s.requests && s.requests[req].Charging?
    ensures Heeds(Next(cfg, s, ChargeCall(req, approved)), said + [ChargeAnswer(s.requests[req].payment.id, approved)])
  {
    var u, p := Next(cfg, s, ChargeCall(req, approved)), s.requests[req].payment;
    var heard := said + [ChargeAnswer(p.id, approved)];
    assert RequestHeeds(said, s.requests[req]) && CreatorOk(s.db, p);
    forall id ensures AnswersOk(u, heard, id) {
      assert AnswersOk(s, said, id);
      ChargeCounted(s, u, said, p.id, approved, id);
    }
    OthersHeed(s, said, req, ChargeAnswer(p.id, approved));
  }

  lemma ChargeCounted(s: System, u: System, said: seq<Verdict>, charged: Id, approved: bool, id: Id)
    requires AnswersOk(s, said, id) && u.charges == s.charges + [charged]
    requires NoChargeAnswer(said, charged) && FraudAnswer(charged, false) in said
    ensures AnswersOk(u, said + [ChargeAnswer(charged, approved)], id)
  {
    SumSnoc(s.charges, charged, IsId(id));
  }

  lemma RowsHeed(cfg: Config, s: System, initial: map<Id, MerchantBalance>, said: seq<Verdict>, a: Action, id: Id)
    requires SystemOk(cfg, s, initial) && Heeds(s, said) && !a.FraudVerdict? && !a.ChargeCall?
    requires id in s.db.payments
    ensures var u := Next(cfg, s, a); id in u.db.payments && RowHeeds(said, u.db.payments[id], id)
  {
    var u := Next(cfg, s, a);
    assert RowHeeds(said, s.db.payments[id], id);
    StatusWrites(cfg, s, initial, a, id);
    if u.db.payments[id].status != s.db.payments[id].status {
      if a.CreateFinish? || a.CreateFail? || a.CaptureFinish? {
        assert RequestHeeds(said, s.requests[a.req]);
        assert a.CreateFinish? ==> CreatorOk(s.db, s.requests[a.req].payment);
      }
    }
  }

  predicate OwnIds(t: Tables) {
    forall id :: id in t.payments ==> t.payments[id].id == id
  }

  lemma OwnIdsOk(cfg: Config, s: System, initial: map<Id, MerchantBalance>)
    requires SystemOk(cfg, s, initial)
    ensures OwnIds(s.db)
  {
    assert forall id :: PaymentOk(cfg.rate, s.db, s.skipped, id) ==> id !in s.db.payments || s.db.payments[id].id == id;
  }

  /** Only a new payment adds a row, and no step rewrites whose payment it is, what for and how much. */
  lemma SameRows(cfg: Config, s: System, a: Action)
    requires OwnIds(s.db) && !a.CreateInsert?
    ensures Next(cfg, s, a).db.payments.Keys == s.db.payments.Keys
    ensures forall id :: id in s.db.payments ==> SameRequest(Next(cfg, s, a).db.payments[id], s.db.payments[id])
  {
    if a.CreateFinish? && a.req in s.requests && s.requests[a.req].Approved? {
      if FinishCharge(cfg, s.db, s.requests[a.req].payment, a.capture, a.fee).Ok? {
        FinishRows(cfg, s.db, s.requests[a.req].payment, a.capture, a.fee);
      }
    } else if a.CaptureFinish? && a.req in s.requests && s.requests[a.req].CaptureGranted? {
      var pc := s.requests[a.req];
      if CapturePayment(cfg, s.db, pc.id, pc.merchant, pc.amount, a.capture, a.fee).Ok? {
        CaptureRows(cfg, s.db, pc.id, pc.merchant, pc.amount, a.capture, a.fee);
      }
    } else if a.RefundStart? && CreateRefund(cfg, s.db, a.refund, a.stamp).Ok? {
      RefundRowsKept(cfg, s.db, a.refund, a.stamp);
    } else if a.Settle? && SettleMerchant(cfg, s.db, a.id, a.merchant, a.locked, a.now).Ok? {
      SettleRows(cfg, s.db, a.id, a.merchant, a.locked, a.now);
    } else if a.CreateFail? || a.Cancel? || a.OpenDispute? {
      StatusRows(cfg, s, a);
    } else {
      QuietRows(cfg, s, a);
    }
  }

  lemma StatusRows(cfg: Config, s: System, a: Action)
    requires a.CreateFail? || a.Cancel? || a.OpenDispute?
    ensures Next(cfg, s, a).db.payments.Keys == s.db.payments.Keys
    ensures forall id :: id in s.db.payments ==> SameRequest(Next(cfg, s, a).db.payments[id], s.db.payments[id])
  {
    match a
    case CreateFail(req) =>
      if req in s.requests && s.requests[req].Creating() { FailRows(s.db, s.requests[req].payment.id); }
    case Cancel(id, merchant) =>
      if CancelPayment(s.db, id, merchant).Ok? { CancelRows(s.db, id, merchant); }
    case OpenDispute(d) =>
      if CreateDispute(s.db, d).Ok? { DisputeRows(s.db, d); }
  }

  lemma QuietRows(cfg: Config, s: System, a: Action)
    requires !a.CreateInsert? && !a.CreateFail? && !a.Cancel? && !a.OpenDispute?
    requires !(a.CreateFinish? && a.req in s.requests && s.requests[a.req].Approved?)
    requires !(a.CaptureFinish? && a.req in s.requests && s.requests[a.req].CaptureGranted?)
    requires !(a.RefundStart? && CreateRefund(cfg, s.db, a.refund, a.stamp).Ok?)
    requires !(a.Settle? && SettleMerchant(cfg, s.db, a.id, a.merchant, a.locked, a.now).Ok?)
    ensures Next(cfg, s, a).db.payments.Keys == s.db.payments.Keys
    ensures forall id :: id in s.db.payments ==> SameRequest(Next(cfg, s, a).db.payments[id], s.db.payments[id])
  {
  }

  /** Answers about captures and refunds. */
  predicate Later(heard: seq<Verdict>) {
    forall i :: 0 <= i < |heard| ==> heard[i].CaptureAnswer? || heard[i].RefundAnswer?
  }

  lemma LaterAnswers(s: System, said: seq<Verdict>, heard: seq<Verdict>)
    requires Heeds(s, said) && Later(heard)
    requires forall verdict :: verdict in heard && verdict.CaptureAnswer? ==> ChargeAnswer(verdict.id, true) in said
    ensures Heeds(s, said + heard)
  {
    assert forall id, b :: CaptureAnswer(id, b) in said + heard ==>
        CaptureAnswer(id, b) in said || ChargeAnswer(id, true) in said;
    assert forall id, b :: FraudAnswer(id, b) in said + heard <==> FraudAnswer(id, b) in said;
    assert forall id, b :: ChargeAnswer(id, b) in said + heard <==> ChargeAnswer(id, b) in said;
    forall id ensures AnswersOk(s, said + heard, id) {
      assert AnswersOk(s, said, id);
    }
    forall id | id in s.db.payments ensures RowHeeds(said + heard, s.db.payments[id], id) {
      assert RowHeeds(said, s.db.payments[id], id);
    }
    forall r | r in s.requests ensures RequestHeeds(said + heard, s.requests[r]) {
      assert RequestHeeds(said, s.requests[r]);
    }
  }

  /** How a step moves requests, once its answer is heard. */
  lemma RequestsHeed(cfg: Config, s: System, said: seq<Verdict>, a: Action, r: Req)
    requires Heeds(s, said) && !a.FraudVerdict? && !a.ChargeCall? && !a.CaptureStart?
    requires a.CaptureVerdict? ==> forall verdict :: verdict in Heard(s, a) ==> verdict in said
    requires r in Next(cfg, s, a).requests
    ensures RequestHeeds(said, Next(cfg, s, a).requests[r])
  {
    if r in s.requests {
      assert RequestHeeds(said, s.requests[r]);
    }
    if a.CaptureVerdict? && a.req in s.requests && s.requests[a.req].CaptureAsked? {
      assert RequestHeeds(said, s.requests[a.req]);
      assert Heard(s, a)[0] in Heard(s, a);
    }
  }

  lemma StartHeeds(cfg: Config, s: System, said: seq<Verdict>, a: Action, r: Req)
    requires Heeds(s, said) && a.CaptureStart? && r in Next(cfg, s, a).requests
    ensures RequestHeeds(said, Next(cfg, s, a).requests[r])
  {
    if r in s.requests {
      assert RequestHeeds(said, s.requests[r]);
    } else {
      assert RowHeeds(said, s.db.payments[a.id], a.id);
    }
  }

  lemma ChargesKept(cfg: Config, s: System, a: Action)
    requires !a.ChargeCall?
    ensures Next(cfg, s, a).charges == s.charges
  {
  }

  lemma HeardOfApproved(s: System, said: seq<Verdict>, a: Action)
    requires Heeds(s, said)
    ensures forall verdict :: verdict in Heard(s, a) && verdict.CaptureAnswer? ==> ChargeAnswer(verdict.id, true) in said
  {
    if a.CaptureVerdict? && a.req in s.requests {
      assert RequestHeeds(said, s.requests[a.req]);
    }
  }

  lemma OtherHeeds(cfg: Config, s: System, initial: map<Id, MerchantBalance>, said: seq<Verdict>, a: Action)
    requires SystemOk(cfg, s, initial) && Heeds(s, said) && !a.FraudVerdict? && !a.ChargeCall?
    ensures Heeds(Next(cfg, s, a), said + Heard(s, a))
  {
    var u, heard := Next(cfg, s, a), said + Heard(s, a);
    HeardOfApproved(s, said, a);
    LaterAnswers(s, said, Heard(s, a));
    ChargesKept(cfg, s, a);
    forall id ensures AnswersOk(u, heard, id) {
      assert AnswersOk(s, heard, id);
    }
    forall id | id in u.db.payments ensures RowHeeds(heard, u.db.payments[id], id) {
      if id in s.db.payments {
        RowsHeed(cfg, s, initial, heard, a, id);
      } else {
        NewRow(cfg, s, initial, a, id);
      }
    }
    forall r | r in u.requests ensures RequestHeeds(heard, u.requests[r]) {
      if a.CaptureStart? {
        StartHeeds(cfg, s, heard, a, r);
      } else {
        RequestsHeed(cfg, s, heard, a, r);
      }
    }
    forall id | id !in u.db.payments ensures id !in s.db.payments {
      if id in s.db.payments { RowsHeed(cfg, s, initial, heard, a, id); }
    }
  }

  lemma NewRow(cfg: Config, s: System, initial: map<Id, MerchantBalance>, a: Action, id: Id)
    requires SystemOk(cfg, s, initial) && id in Next(cfg, s, a).db.payments && id !in s.db.payments
    ensures var row := Next(cfg, s, a).db.payments[id]; row.status == Created && row.capturedAmount.None?
  {
    if !a.CreateInsert? {
      OwnIdsOk(cfg, s, initial);
      SameRows(cfg, s, a);
    }
  }

  lemma StepHeeds(cfg: Config, s: System, initial: map<Id, MerchantBalance>, said: seq<Verdict>, a: Action)
    requires SystemOk(cfg, s, initial) && Heeds(s, said)
    ensures Heeds(Next(cfg, s, a), said + Heard(s, a))
  {
    if a.FraudVerdict? && a.req in s.requests && s.requests[a.req].Screening? {
      FraudHeeds(cfg, s, said, a.req, a.blocked);
    } else if a.ChargeCall? && a.req in s.requests && s.requests[a.req].Charging? {
      ChargeHeeds(cfg, s, said, a.req, a.approved);
    } else if a.FraudVerdict? || a.ChargeCall? {
      assert Next(cfg, s, a) == s && said + [] == said;
    } else {
      OtherHeeds(cfg, s, initial, said, a);
    }
  }

  lemma {:induction false} RunHeeds(
    cfg: Config, initial: map<Id, MerchantBalance>, run: seq<Action>, states: seq<System>)
    requires Passes(cfg, Start(initial), run, states)
    ensures SystemOk(cfg, states[|run|], initial) && Heeds(states[|run|], Answers(run, states))
    decreases |run|
  {
    if run == [] {
      StartOk(cfg, initial);
    } else {
      var last := |run| - 1;
      PassesFront(cfg, Start(initial), run, states);
      RunHeeds(cfg, initial, run[..last], states[..|run|]);
      StepKeeps(cfg, states[last], initial, run[last]);
      StepHeeds(cfg, states[last], initial, Answers(run[..last], states[..|run|]), run[last]);
    }
  }

  /** A payment that the fraud check blocked is never sent to the acquirer and never captured, whatever else
      happens; nor is one on which the check has not answered. */
  lemma BlockedNeverCharged(
    cfg: Config, initial: map<Id, MerchantBalance>, run: seq<Action>, states: seq<System>, id: Id)
    requires Passes(cfg, Start(initial), run, states)
    ensures var s, said := states[|run|], Answers(run, states);
            FraudAnswer(id, true) in said || FraudAnswer(id, false) !in said ==>
              ChargeCalls(s, id) == 0 && !HasCapture(s.db, id) && SumBy(s.db.ledger, CapturePairs(id)) == 0
  {
    RunHeeds(cfg, initial, run, states);
    var s, said := states[|run|], Answers(run, states);
    assert AnswersOk(s, said, id) && PaymentOk(cfg.rate, s.db, s.skipped, id);
    if id in s.db.payments {
      assert RowHeeds(said, s.db.payments[id], id);
    }
  }

  /** The acquirer is asked to charge a payment at most once, exactly if it has answered, and to capture it only
      after it approved the charge; a payment is captured only if the acquirer approved its charge and, for a manual
      capture, granted the capture too. */
  lemma CapturedWasApproved(
    cfg: Config, initial: map<Id, MerchantBalance>, run: seq<Action>, states: seq<System>, id: Id)
    requires Passes(cfg, Start(initial), run, states)
    ensures var s, said := states[|run|], Answers(run, states);
            && (ChargeCalls(s, id) == 1 <==> ChargeAnswer(id, true) in said || ChargeAnswer(id, false) in said)
            && (NoCaptureAnswer(said, id) || ChargeAnswer(id, true) in said)
            && (HasCapture(s.db, id) ==>
                  && FraudAnswer(id, false) in said
                  && ChargeAnswer(id, true) in said && ChargeAnswer(id, false) !in said
                  && (s.db.payments[id].captureMethod == Manual ==> CaptureAnswer(id, true) in said))
  {
    RunHeeds(cfg, initial, run, states);
    var s, said := states[|run|], Answers(run, states);
    assert AnswersOk(s, said, id);
    if id in s.db.payments {
      assert RowHeeds(said, s.db.payments[id], id);
    }
  }

  /** A payment fails only if the fraud check blocked it or the acquirer refused it, and is authorized only if
      the acquirer approved it. */
  lemma FailedWasRefused(
    cfg: Config, initial: map<Id, MerchantBalance>, run: seq<Action>, states: seq<System>, id: Id)
    requires Passes(cfg, Start(initial), run, states) && id in states[|run|].db.payments
    ensures var p, said := states[|run|].db.payments[id], Answers(run, states);
            && (p.status == Failed ==> FraudAnswer(id, true) in said || ChargeAnswer(id, false) in said)
            && (p.status == Authorized ==> ChargeAnswer(id, true) in said)
  {
    RunHeeds(cfg, initial, run, states);
    assert RowHeeds(Answers(run, states), states[|run|].db.payments[id], id);
  }
}
