/** Refund rows against the acquirer's answers (crates/payment-service/src/orchestrator.rs, create_refund). */
module Refunds {
  import opened Models
  import opened Ledger
  import opened Schema
  import opened Transactions
  import opened Protocol
  import opened Preservation
  import opened Runs
  import opened Verdicts

  /** Some refund with this id was skipped for a taken key, so the row with the id is not its own. */
  predicate SkippedId(s: System, id: Id) {
    exists k :: 0 <= k < |s.skipped| && s.skipped[k].id == id
  }

  predicate NoAnswer(said: seq<Verdict>, id: Id) {
    RefundAnswer(id, true) !in said && RefundAnswer(id, false) !in said
  }

  /** A refund's row says what the acquirer answered, and pending if it has not. */
  predicate Told(r: Refund, said: seq<Verdict>) {
    && (r.status == RefundPending <==> NoAnswer(said, r.id))
    && (r.status == RefundSucceeded <==> RefundAnswer(r.id, true) in said)
    && (r.status == RefundFailed <==> RefundAnswer(r.id, false) in said)
  }

  /** Without a skip, the row of a refund in flight is the refund, pending until the acquirer has answered. */
  predicate InFlight(s: System, pc: Pc) {
    && (pc.RefundSent? ==> pc.refund.status == RefundPending && (SkippedId(s, pc.refund.id) || pc.refund in s.db.refunds))
    && (pc.RefundDone? ==>
          SkippedId(s, pc.refund.id) || pc.refund.(status := RefundSucceeded) in s.db.refunds)
  }

  predicate Refunding(pc: Pc) {
    pc.RefundSent? || pc.RefundDone?
  }

  /** Without a skip, one request is at work on a refund. */
  predicate OneRequest(s: System) {
    forall p, q :: p in s.requests && q in s.requests && Refunding(s.requests[p]) && Refunding(s.requests[q])
                   && s.requests[p].refund.id == s.requests[q].refund.id && !SkippedId(s, s.requests[p].refund.id)
                   ==> p == q
  }

  predicate DistinctIds(rows: seq<Refund>) {
    forall i, j :: 0 <= i < j < |rows| ==> rows[i].id != rows[j].id
  }

  ghost predicate RefundsOk(s: System, said: seq<Verdict>) {
    && DistinctIds(s.db.refunds)
    && (forall i :: 0 <= i < |s.db.refunds| && !SkippedId(s, s.db.refunds[i].id) ==> Told(s.db.refunds[i], said))
    && (forall i :: 0 <= i < |s.db.refunds| ==> ToldAtMost(s.db.refunds[i], said))
    && (forall id :: !SkippedId(s, id) && !RefundIdTaken(s.db, id) ==> NoAnswer(said, id))
    && (forall q :: q in s.requests ==> InFlight(s, s.requests[q]))
    && OneRequest(s)
  }

  /** With a skip, the row says at least nothing that was not answered. */
  predicate ToldAtMost(r: Refund, said: seq<Verdict>) {
    && (r.status == RefundSucceeded ==> RefundAnswer(r.id, true) in said)
    && (r.status == RefundFailed ==> RefundAnswer(r.id, false) in said)
  }

  predicate NoRefundAnswers(heard: seq<Verdict>) {
    forall i :: 0 <= i < |heard| ==> !heard[i].RefundAnswer?
  }

  /** A step that leaves refunds and their requests alone, but for dropping some. */
  lemma QuietRefunds(s: System, u: System, said: seq<Verdict>, heard: seq<Verdict>)
    requires RefundsOk(s, said) && NoRefundAnswers(heard)
    requires u.db.refunds == s.db.refunds && u.skipped == s.skipped
    requires forall q :: q in u.requests && Refunding(u.requests[q]) ==>
               q in s.requests && s.requests[q] == u.requests[q]
    ensures RefundsOk(u, said + heard)
  {
    assert forall id, b :: RefundAnswer(id, b) in said + heard <==> RefundAnswer(id, b) in said;
    assert forall id :: SkippedId(u, id) <==> SkippedId(s, id);
    forall q | q in u.requests ensures InFlight(u, u.requests[q]) {
      if Refunding(u.requests[q]) { assert InFlight(s, s.requests[q]); }
    }
  }

  lemma StartedRefund(s: System, u: System, said: seq<Verdict>, req: Req, r: Refund)
    requires RefundsOk(s, said) && req !in s.requests && r.status == RefundPending
    requires u.requests == s.requests[req := RefundSent(r)]
    requires if RefundKeyTaken(s.db, r) then u.skipped == s.skipped + [r] && u.db.refunds == s.db.refunds
             else u.skipped == s.skipped && u.db.refunds == s.db.refunds + [r] && !RefundIdTaken(s.db, r.id)
    ensures RefundsOk(u, said)
  {
    assert forall k :: 0 <= k < |s.skipped| ==> u.skipped[k] == s.skipped[k];
    assert forall id :: SkippedId(s, id) ==> SkippedId(u, id);
    assert RefundKeyTaken(s.db, r) ==> u.skipped[|s.skipped|] == r;
    assert !RefundKeyTaken(s.db, r) ==> u.db.refunds[|s.db.refunds|] == r;
    assert forall i :: 0 <= i < |s.db.refunds| ==> u.db.refunds[i] == s.db.refunds[i];
    assert forall id :: RefundIdTaken(s.db, id) ==> RefundIdTaken(u.db, id);
    forall q | q in u.requests ensures InFlight(u, u.requests[q]) {
      if q != req { assert InFlight(s, s.requests[q]); }
    }
    OneRequestMore(s, u, req, r);
  }

  lemma OneRequestMore(s: System, u: System, req: Req, r: Refund)
    requires OneRequest(s) && forall q :: q in s.requests ==> InFlight(s, s.requests[q])
    requires u.requests == s.requests[req := RefundSent(r)] && req !in s.requests
    requires forall id :: SkippedId(s, id) ==> SkippedId(u, id)
    requires RefundIdTaken(s.db, r.id) ==> SkippedId(u, r.id)
    ensures OneRequest(u)
  {
    forall q | q in s.requests && Refunding(s.requests[q]) && s.requests[q].refund.id == r.id ensures SkippedId(u, r.id) {
      assert InFlight(s, s.requests[q]);
    }
  }

  lemma AnsweredRefund(s: System, u: System, said: seq<Verdict>, req: Req, succeeded: bool)
    requires RefundsOk(s, said) && req in s.requests && s.requests[req].RefundSent?
    requires var r := s.requests[req].refund;
             && u.db.refunds == WithRefundStatus(s.db.refunds, r.id, if succeeded then RefundSucceeded else RefundFailed)
             && u.skipped == s.skipped
             && u.requests == (if succeeded then s.requests[req := RefundDone(r)] else s.requests - {req})
    ensures RefundsOk(u, said + [RefundAnswer(s.requests[req].refund.id, succeeded)])
  {
    var r, heard := s.requests[req].refund, said + [RefundAnswer(s.requests[req].refund.id, succeeded)];
    assert forall id :: SkippedId(u, id) <==> SkippedId(s, id);
    assert forall i :: 0 <= i < |s.db.refunds| ==> u.db.refunds[i].id == s.db.refunds[i].id;
    assert forall id :: RefundIdTaken(u.db, id) <==> RefundIdTaken(s.db, id);
    assert forall id, b :: id != r.id ==> (RefundAnswer(id, b) in heard <==> RefundAnswer(id, b) in said);
    assert InFlight(s, s.requests[req]);
    AnsweredRows(s, u, said, req, succeeded);
    forall q | q in u.requests ensures InFlight(u, u.requests[q]) {
      AnsweredInFlight(s, u, req, succeeded, q);
    }
  }

  lemma AnsweredRows(s: System, u: System, said: seq<Verdict>, req: Req, succeeded: bool)
    requires RefundsOk(s, said) && req in s.requests && s.requests[req].RefundSent? && u.skipped == s.skipped
    requires u.db.refunds
          == WithRefundStatus(s.db.refunds, s.requests[req].refund.id, if succeeded then RefundSucceeded else RefundFailed)
    ensures var heard := said + [RefundAnswer(s.requests[req].refund.id, succeeded)];
            forall i :: 0 <= i < |u.db.refunds| ==>
              ToldAtMost(u.db.refunds[i], heard) && (!SkippedId(u, u.db.refunds[i].id) ==> Told(u.db.refunds[i], heard))
  {
    var r, heard := s.requests[req].refund, said + [RefundAnswer(s.requests[req].refund.id, succeeded)];
    assert InFlight(s, s.requests[req]);
    forall i | 0 <= i < |u.db.refunds|
      ensures ToldAtMost(u.db.refunds[i], heard) && (!SkippedId(u, u.db.refunds[i].id) ==> Told(u.db.refunds[i], heard))
    {
      var row := s.db.refunds[i];
      assert ToldAtMost(row, said);
      if !SkippedId(s, row.id) {
        assert Told(row, said);
        if row.id == r.id {
          var k :| 0 <= k < |s.db.refunds| && s.db.refunds[k] == r;
          assert k == i;
        }
      }
    }
  }

  lemma AnsweredInFlight(s: System, u: System, req: Req, succeeded: bool, q: Req)
    requires OneRequest(s) && req in s.requests && s.requests[req].RefundSent? && q in u.requests
    requires forall p :: p in s.requests ==> InFlight(s, s.requests[p])
    requires var r := s.requests[req].refund;
             && u.db.refunds == WithRefundStatus(s.db.refunds, r.id, if succeeded then RefundSucceeded else RefundFailed)
             && u.skipped == s.skipped
             && u.requests == (if succeeded then s.requests[req := RefundDone(r)] else s.requests - {req})
    ensures InFlight(u, u.requests[q])
  {
    var r := s.requests[req].refund;
    assert InFlight(s, s.requests[req]) && InFlight(s, s.requests[q]);
    assert SkippedId(u, s.requests[req].refund.id) <==> SkippedId(s, s.requests[req].refund.id);
    if Refunding(u.requests[q]) && !SkippedId(u, u.requests[q].refund.id) {
      var before := if s.requests[q].RefundSent? then s.requests[q].refund
                    else s.requests[q].refund.(status := RefundSucceeded);
      var k :| 0 <= k < |s.db.refunds| && s.db.refunds[k] == before;
      assert u.db.refunds[k] in u.db.refunds;
    }
  }

  /** Every other step leaves the refund rows and their requests alone. */
  lemma OtherSteps(cfg: Config, s: System, said: seq<Verdict>, a: Action)
    requires RefundsOk(s, said)
    requires !(a.RefundStart? && a.req !in s.requests && CreateRefund(cfg, s.db, a.refund, a.stamp).Ok?)
    requires !(a.RefundVerdict? && a.req in s.requests && s.requests[a.req].RefundSent?)
    ensures RefundsOk(Next(cfg, s, a), said + Heard(s, a))
  {
    UntouchedRefunds(cfg, s, a);
    KeptRequests(cfg, s, a);
    QuietRefunds(s, Next(cfg, s, a), said, Heard(s, a));
  }

  lemma ChargeLeaves(cfg: Config, t: Tables, row: Payment, base: int, capture: Stamp, fee: Stamp)
    requires CommitCharge(cfg, t, row, base, capture, fee).Ok?
    ensures CommitCharge(cfg, t, row, base, capture, fee).value.refunds == t.refunds
  {
  }

  lemma UntouchedRefunds(cfg: Config, s: System, a: Action)
    requires !(a.RefundStart? && a.req !in s.requests && CreateRefund(cfg, s.db, a.refund, a.stamp).Ok?)
    requires !(a.RefundVerdict? && a.req in s.requests && s.requests[a.req].RefundSent?)
    ensures Next(cfg, s, a).db.refunds == s.db.refunds && Next(cfg, s, a).skipped == s.skipped
  {
    if a.CreateFinish? || a.CaptureFinish? {
      var row, base := ChargeCommits(cfg, s, a);
      if Next(cfg, s, a).db != s.db {
        ChargeLeaves(cfg, s.db, row, base, a.capture, a.fee);
      }
    } else {
      UncapturedRefunds(cfg, s, a);
    }
  }

  lemma UncapturedRefunds(cfg: Config, s: System, a: Action)
    requires !(a.RefundStart? && a.req !in s.requests && CreateRefund(cfg, s.db, a.refund, a.stamp).Ok?)
    requires !(a.RefundVerdict? && a.req in s.requests && s.requests[a.req].RefundSent?)
    requires !a.CreateFinish? && !a.CaptureFinish?
    ensures Next(cfg, s, a).db.refunds == s.db.refunds && Next(cfg, s, a).skipped == s.skipped
  {
  }

  lemma KeptRequests(cfg: Config, s: System, a: Action)
    requires !(a.RefundStart? && a.req !in s.requests && CreateRefund(cfg, s.db, a.refund, a.stamp).Ok?)
    requires !(a.RefundVerdict? && a.req in s.requests && s.requests[a.req].RefundSent?)
    ensures forall q :: q in Next(cfg, s, a).requests && Refunding(Next(cfg, s, a).requests[q]) ==>
              q in s.requests && s.requests[q] == Next(cfg, s, a).requests[q]
  {
  }

  lemma StepTells(cfg: Config, s: System, said: seq<Verdict>, a: Action)
    requires RefundsOk(s, said)
    ensures RefundsOk(Next(cfg, s, a), said + Heard(s, a))
  {
    if a.RefundStart? && a.req !in s.requests && CreateRefund(cfg, s.db, a.refund, a.stamp).Ok? {
      var r := CreateRefund(cfg, s.db, a.refund, a.stamp).value.1;
      RefundCommits(cfg, s.db, a.refund, a.stamp);
      StartedRefund(s, Next(cfg, s, a), said, a.req, r);
      assert said + [] == said;
    } else if a.RefundVerdict? && a.req in s.requests && s.requests[a.req].RefundSent? {
      AnsweredRefund(s, Next(cfg, s, a), said, a.req, a.succeeded);
    } else {
      OtherSteps(cfg, s, said, a);
    }
  }

  lemma {:induction false} RunTells(
    cfg: Config, initial: map<Id, MerchantBalance>, run: seq<Action>, states: seq<System>)
    requires Passes(cfg, Start(initial), run, states)
    ensures RefundsOk(states[|run|], Answers(run, states))
    decreases |run|
  {
    if run != [] {
      var last := |run| - 1;
      PassesFront(cfg, Start(initial), run, states);
      RunTells(cfg, initial, run[..last], states[..|run|]);
      StepTells(cfg, states[last], Answers(run[..last], states[..|run|]), run[last]);
    }
  }

  /** A refund row is succeeded or failed only after the acquirer answered so; unless a refund with its id was
      skipped, exactly then, and pending exactly as long as the acquirer has not answered. */
  lemma RefundStatusTold(
    cfg: Config, initial: map<Id, MerchantBalance>, run: seq<Action>, states: seq<System>, i: nat)
    requires Passes(cfg, Start(initial), run, states) && i < |states[|run|].db.refunds|
    ensures var r, said := states[|run|].db.refunds[i], Answers(run, states);
            ToldAtMost(r, said) && (!SkippedId(states[|run|], r.id) ==> Told(r, said))
  {
    RunTells(cfg, initial, run, states);
  }

  /** While a refund waits for the acquirer its row is pending, and the acquirer has not answered. */
  lemma PendingUntilAnswered(
    cfg: Config, initial: map<Id, MerchantBalance>, run: seq<Action>, states: seq<System>, q: Req)
    requires Passes(cfg, Start(initial), run, states)
    requires q in states[|run|].requests && states[|run|].requests[q].RefundSent?
    ensures var s, r := states[|run|], states[|run|].requests[q].refund;
            r.status == RefundPending
            && (!SkippedId(s, r.id) ==> r in s.db.refunds && NoAnswer(Answers(run, states), r.id))
  {
    RunTells(cfg, initial, run, states);
    assert InFlight(states[|run|], states[|run|].requests[q]);
  }
}
