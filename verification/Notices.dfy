/** Which succeeded refunds are announced, and which never will be (crates/payment-service/src/orchestrator.rs):
    the answer is recorded and announced in two transactions. */
module Notices {
  import opened Models
  import opened Sums
  import opened Ledger
  import opened Schema
  import opened Transactions
  import opened Protocol
  import opened Preservation
  import opened Verdicts
  import opened Refunds
  import opened Events

  /** How often refund.succeeded was published for the refund. */
  function Notified(s: System, id: Id): int {
    Count(s.db.outbox, RefundSucceededEvent, id, WebhooksTopic)
  }

  predicate RowSucceeded(s: System, id: Id) {
    exists i :: 0 <= i < |s.db.refunds| && s.db.refunds[i].id == id && s.db.refunds[i].status == RefundSucceeded
  }

  /** A request has recorded the success and not announced it yet. */
  predicate Announcing(s: System, id: Id) {
    exists q :: q in s.requests && s.requests[q].RefundDone? && s.requests[q].refund.id == id
  }

  /** Announced at most once, after the success, and not before the request that recorded it is over. */
  predicate NoticesOk(s: System, id: Id) {
    && 0 <= Notified(s, id) <= 1
    && (Notified(s, id) == 1 ==> RowSucceeded(s, id))
    && (Announcing(s, id) ==> Notified(s, id) == 0)
  }

  /** Succeeded, not announced, and nobody left to announce it. */
  predicate Lost(s: System, id: Id) {
    RowSucceeded(s, id) && Notified(s, id) == 0 && !Announcing(s, id)
  }

  // ---------- one step ----------

  lemma NotifyCounts(cfg: Config, s: System, req: Req, id: Id)
    requires req in s.requests && s.requests[req].RefundDone?
    ensures var u := Next(cfg, s, RefundNotify(req));
            && Notified(u, id) == Notified(s, id) + (if s.requests[req].refund.id == id then 1 else 0)
            && u.db.refunds == s.db.refunds && u.requests == s.requests - {req}
  {
    var e := RefundEvent(RefundSucceededEvent, s.requests[req].refund, WebhooksTopic);
    CountMore(s.db.outbox, [e], RefundSucceededEvent, id, WebhooksTopic);
    CountOne(e, RefundSucceededEvent, id, WebhooksTopic);
  }

  /** The end of a request that had recorded the success. */
  lemma DoneDropped(s: System, u: System, said: seq<Verdict>, req: Req, id: Id)
    requires RefundsOk(s, said) && !SkippedId(s, id) && req in s.requests && s.requests[req].RefundDone?
    requires u.requests == s.requests - {req} && u.db.refunds == s.db.refunds
    ensures RowSucceeded(u, id) == RowSucceeded(s, id)
    ensures if s.requests[req].refund.id == id then RowSucceeded(s, id) && Announcing(s, id) && !Announcing(u, id)
            else Announcing(u, id) <==> Announcing(s, id)
  {
    if s.requests[req].refund.id == id {
      assert InFlight(s, s.requests[req]);
      var k :| 0 <= k < |s.db.refunds| && s.db.refunds[k] == s.requests[req].refund.(status := RefundSucceeded);
    } else if Announcing(s, id) {
      var q :| q in s.requests && s.requests[q].RefundDone? && s.requests[q].refund.id == id;
      assert q in u.requests && u.requests[q] == s.requests[q];
    }
  }

  lemma NotifyStep(cfg: Config, s: System, said: seq<Verdict>, req: Req, id: Id)
    requires RefundsOk(s, said) && !SkippedId(s, id) && NoticesOk(s, id)
    requires req in s.requests && s.requests[req].RefundDone?
    ensures var u := Next(cfg, s, RefundNotify(req));
            && NoticesOk(u, id) && (Lost(u, id) <==> Lost(s, id))
  {
    NotifyCounts(cfg, s, req, id);
    DoneDropped(s, Next(cfg, s, RefundNotify(req)), said, req, id);
  }

  lemma AnswerStep(cfg: Config, s: System, said: seq<Verdict>, req: Req, succeeded: bool, id: Id)
    requires RefundsOk(s, said) && !SkippedId(s, id) && NoticesOk(s, id)
    requires req in s.requests && s.requests[req].RefundSent?
    ensures var u := Next(cfg, s, RefundVerdict(req, succeeded));
            && NoticesOk(u, id) && Notified(u, id) == Notified(s, id)
            && (if s.requests[req].refund.id == id
                then !RowSucceeded(s, id) && (RowSucceeded(u, id) ==> Announcing(u, id))
                else (RowSucceeded(u, id) <==> RowSucceeded(s, id)) && (Announcing(u, id) <==> Announcing(s, id)))
  {
    var u, r := Next(cfg, s, RefundVerdict(req, succeeded)), s.requests[req].refund;
    assert InFlight(s, s.requests[req]);
    if r.id == id {
      var k :| 0 <= k < |s.db.refunds| && s.db.refunds[k] == r;
      assert forall i :: 0 <= i < |s.db.refunds| && s.db.refunds[i].id == id ==> i == k;
      assert u.db.refunds[k].id == id;
      assert succeeded ==> req in u.requests && u.requests[req] == RefundDone(r);
    } else {
      OtherAnswer(s, u, req, succeeded, id);
    }
  }

  lemma OtherAnswer(s: System, u: System, req: Req, succeeded: bool, id: Id)
    requires req in s.requests && s.requests[req].RefundSent? && s.requests[req].refund.id != id
    requires u.db.refunds
          == WithRefundStatus(s.db.refunds, s.requests[req].refund.id, if succeeded then RefundSucceeded else RefundFailed)
    requires u.requests == (if succeeded then s.requests[req := RefundDone(s.requests[req].refund)] else s.requests - {req})
    ensures RowSucceeded(u, id) <==> RowSucceeded(s, id)
    ensures Announcing(u, id) <==> Announcing(s, id)
  {
    if RowSucceeded(s, id) {
      var i :| 0 <= i < |s.db.refunds| && s.db.refunds[i].id == id && s.db.refunds[i].status == RefundSucceeded;
      assert u.db.refunds[i] == s.db.refunds[i];
    }
    if Announcing(s, id) {
      var q :| q in s.requests && s.requests[q].RefundDone? && s.requests[q].refund.id == id;
      assert q in u.requests && u.requests[q] == s.requests[q];
    }
  }

  lemma StartStep(cfg: Config, s: System, a: Action, id: Id)
    requires a.RefundStart?
    ensures var u := Next(cfg, s, a);
            && Notified(u, id) == Notified(s, id) && (RowSucceeded(u, id) <==> RowSucceeded(s, id))
            && (Announcing(u, id) <==> Announcing(s, id))
  {
    var u := Next(cfg, s, a);
    if a.req !in s.requests && CreateRefund(cfg, s.db, a.refund, a.stamp).Ok? {
      var r := CreateRefund(cfg, s.db, a.refund, a.stamp).value.1;
      RefundCommits(cfg, s.db, a.refund, a.stamp);
      var e := RefundEvent(RefundPendingEvent, r, PaymentsTopic);
      CountMore(s.db.outbox, [e], RefundSucceededEvent, id, WebhooksTopic);
      CountOne(e, RefundSucceededEvent, id, WebhooksTopic);
      StartedRow(s, u, a.req, r, id);
    }
  }

  lemma StartedRow(s: System, u: System, req: Req, r: Refund, id: Id)
    requires req !in s.requests && u.requests == s.requests[req := RefundSent(r)] && r.status == RefundPending
    requires u.db.refunds == s.db.refunds || u.db.refunds == s.db.refunds + [r]
    ensures RowSucceeded(u, id) <==> RowSucceeded(s, id)
    ensures Announcing(u, id) <==> Announcing(s, id)
  {
    if RowSucceeded(s, id) {
      var i :| 0 <= i < |s.db.refunds| && s.db.refunds[i].id == id && s.db.refunds[i].status == RefundSucceeded;
      assert u.db.refunds[i] == s.db.refunds[i];
    }
    if Announcing(s, id) {
      var q :| q in s.requests && s.requests[q].RefundDone? && s.requests[q].refund.id == id;
      assert q in u.requests && u.requests[q] == s.requests[q];
    }
  }

  lemma NoNoticeCount(log: seq<Event>, longer: seq<Event>, id: Id)
    requires NoNotice(log, longer)
    ensures Count(longer, RefundSucceededEvent, id, WebhooksTopic) == Count(log, RefundSucceededEvent, id, WebhooksTopic)
  {
    SumExtend(log, longer, OfKind(RefundSucceededEvent, id, WebhooksTopic));
  }

  /** Steps that concern no refund. */
  lemma QuietNotices(cfg: Config, s: System, a: Action, id: Id)
    requires !a.RefundStart? && !a.RefundVerdict? && !a.RefundNotify? && !a.Crash?
    ensures var u := Next(cfg, s, a);
            && Notified(u, id) == Notified(s, id) && u.db.refunds == s.db.refunds
            && (Announcing(u, id) <==> Announcing(s, id))
  {
    var u := Next(cfg, s, a);
    UntouchedRefunds(cfg, s, a);
    if a.CreateFinish? || a.CaptureFinish? {
      ChargeNotices(cfg, s, a);
    } else {
      OtherNotices(cfg, s, a);
    }
    NoNoticeCount(s.db.outbox, u.db.outbox, id);
    DoneKept(cfg, s, a);
    assert forall q :: q in s.requests && s.requests[q].RefundDone? ==> q in u.requests && u.requests[q] == s.requests[q];
  }

  lemma DoneKept(cfg: Config, s: System, a: Action)
    requires !a.RefundStart? && !a.RefundVerdict? && !a.RefundNotify? && !a.Crash?
    ensures forall q :: q in s.requests && s.requests[q].RefundDone? ==>
              q in Next(cfg, s, a).requests && Next(cfg, s, a).requests[q] == s.requests[q]
    ensures forall q :: q in Next(cfg, s, a).requests && Next(cfg, s, a).requests[q].RefundDone? ==>
              q in s.requests && s.requests[q] == Next(cfg, s, a).requests[q]
  {
  }

  /** The request that recorded the success vanishes before it announces it. */
  predicate LosesNotice(s: System, a: Action, id: Id) {
    a.Crash? && a.req in s.requests && s.requests[a.req].RefundDone? && s.requests[a.req].refund.id == id
  }

  lemma CrashNotices(cfg: Config, s: System, said: seq<Verdict>, req: Req, id: Id)
    requires RefundsOk(s, said) && !SkippedId(s, id) && NoticesOk(s, id)
    ensures var u := Next(cfg, s, Crash(req));
            NoticesOk(u, id) && (Lost(u, id) <==> Lost(s, id) || LosesNotice(s, Crash(req), id))
  {
    var u := Next(cfg, s, Crash(req));
    if req in s.requests && s.requests[req].RefundDone? {
      DoneDropped(s, u, said, req, id);
    } else {
      assert forall q :: q in s.requests && s.requests[q].RefundDone? ==> q in u.requests && u.requests[q] == s.requests[q];
    }
  }

  /** A succeeded refund loses its announcement by such a crash and in no other way, and for good. */
  lemma LostByCrash(cfg: Config, s: System, said: seq<Verdict>, a: Action, id: Id)
    requires RefundsOk(s, said) && !SkippedId(s, id) && NoticesOk(s, id)
    ensures NoticesOk(Next(cfg, s, a), id) && (Lost(s, id) ==> Lost(Next(cfg, s, a), id))
    ensures !Lost(s, id) ==> (Lost(Next(cfg, s, a), id) <==> LosesNotice(s, a, id))
  {
    var u := Next(cfg, s, a);
    match a
    case RefundStart(_, _, _) => StartStep(cfg, s, a, id);
    case RefundVerdict(req, succeeded) =>
      if req in s.requests && s.requests[req].RefundSent? { AnswerStep(cfg, s, said, req, succeeded, id); }
    case RefundNotify(req) =>
      if req in s.requests && s.requests[req].RefundDone? { NotifyStep(cfg, s, said, req, id); }
    case Crash(req) => CrashNotices(cfg, s, said, req, id);
    case _ =>
      QuietNotices(cfg, s, a, id);
      assert RowSucceeded(u, id) <==> RowSucceeded(s, id);
  }

  // ---------- runs ----------

  lemma {:induction false} RunKeepsNotices(
    cfg: Config, initial: map<Id, MerchantBalance>, run: seq<Action>, states: seq<System>, id: Id)
    requires Passes(cfg, Start(initial), run, states) && !SkippedId(states[|run|], id)
    ensures NoticesOk(states[|run|], id) && RefundsOk(states[|run|], Answers(run, states))
    decreases |run|
  {
    RunTells(cfg, initial, run, states);
    if run != [] {
      var last := |run| - 1;
      PassesFront(cfg, Start(initial), run, states);
      if SkippedId(states[last], id) { StaysSkipped(cfg, states[last], run[last], id); }
      RunTells(cfg, initial, run[..last], states[..|run|]);
      RunKeepsNotices(cfg, initial, run[..last], states[..|run|], id);
      LostByCrash(cfg, states[last], Answers(run[..last], states[..|run|]), run[last], id);
    }
  }

  lemma StaysSkipped(cfg: Config, s: System, a: Action, id: Id)
    requires SkippedId(s, id)
    ensures SkippedId(Next(cfg, s, a), id)
  {
    var k :| 0 <= k < |s.skipped| && s.skipped[k].id == id;
    if a.RefundStart? {
      assert s.skipped <= Next(cfg, s, a).skipped;
      assert Next(cfg, s, a).skipped[k] == s.skipped[k];
    } else {
      SkippedKept(cfg, s, a);
    }
  }

  lemma SkippedKept(cfg: Config, s: System, a: Action)
    requires !a.RefundStart?
    ensures Next(cfg, s, a).skipped == s.skipped
  {
  }

  /** A succeeded refund is announced exactly once, or its request is about to announce it, or it is lost; unless
      its id is that of a skipped refund. */
  lemma AnnouncedOnce(
    cfg: Config, initial: map<Id, MerchantBalance>, run: seq<Action>, states: seq<System>, id: Id)
    requires Passes(cfg, Start(initial), run, states) && !SkippedId(states[|run|], id)
    ensures var s := states[|run|];
            && (Notified(s, id) == 1 ==> RowSucceeded(s, id) && !Announcing(s, id))
            && (RowSucceeded(s, id) ==> Notified(s, id) == 1 || Announcing(s, id) || Lost(s, id))
            && 0 <= Notified(s, id) <= 1
  {
    RunKeepsNotices(cfg, initial, run, states, id);
  }

  /** It is lost by a crash of its request between the two transactions and in no other way, and then no
      continuation announces it. */
  lemma {:induction false} LostForever(
    cfg: Config, initial: map<Id, MerchantBalance>, run: seq<Action>, states: seq<System>, n: nat, id: Id)
    requires Passes(cfg, Start(initial), run, states) && n <= |run|
    requires Lost(states[n], id) && !SkippedId(states[|run|], id)
    ensures Lost(states[|run|], id)
    decreases |run|
  {
    if n < |run| {
      var last := |run| - 1;
      PassesFront(cfg, Start(initial), run, states);
      if SkippedId(states[last], id) { StaysSkipped(cfg, states[last], run[last], id); }
      LostForever(cfg, initial, run[..last], states[..|run|], n, id);
      RunKeepsNotices(cfg, initial, run[..last], states[..|run|], id);
      LostByCrash(cfg, states[last], Answers(run[..last], states[..|run|]), run[last], id);
    }
  }

  /** Every such crash loses it. */
  lemma CrashLoses(cfg: Config, initial: map<Id, MerchantBalance>, s: System, req: Req)
    requires Reached(cfg, initial, s) && req in s.requests && s.requests[req].RefundDone?
    requires !SkippedId(s, s.requests[req].refund.id)
    ensures Lost(Next(cfg, s, Crash(req)), s.requests[req].refund.id)
    ensures Next(cfg, s, Crash(req)).skipped == s.skipped
  {
    var run, states :| Passes(cfg, Start(initial), run, states) && states[|run|] == s;
    RunKeepsNotices(cfg, initial, run, states, s.requests[req].refund.id);
    LostByCrash(cfg, s, Answers(run, states), Crash(req), s.requests[req].refund.id);
  }
}
