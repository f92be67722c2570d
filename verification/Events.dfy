/** The outbox log as a record of what was committed: which event, how often, on which topic. */
module Events {
  import opened Models
  import opened Sums
  import opened Ledger
  import opened Schema
  import opened Transactions
  import opened Protocol
  import opened Preservation
  import opened Runs
  import opened Verdicts
  import opened Refunds

  /** The topic and the payload's payment that an event of this kind carries. */
  predicate EventOk(e: Event) {
    match e.kind
    case PaymentCreated | PaymentFailed | PaymentCancelled => e.topic == PaymentsTopic && e.payment == Some(e.aggregate)
    case PaymentAuthorized | PaymentCaptured => e.payment == Some(e.aggregate)
    case RefundPendingEvent | DisputeCreated => e.topic == PaymentsTopic && e.payment.Some?
    case RefundSucceededEvent => e.topic == WebhooksTopic && e.payment.Some?
    case SettlementCompleted => e.topic == WebhooksTopic && e.payment.None?
  }

  function OfKind(kind: EventType, id: Id, topic: Topic): Event -> int {
    (e: Event) => if e.kind == kind && e.aggregate == id && e.topic == topic then 1 else 0
  }

  /** How many events of the kind about the aggregate the topic got. */
  function Count(log: seq<Event>, kind: EventType, id: Id, topic: Topic): int {
    SumBy(log, OfKind(kind, id, topic))
  }

  function IsRefund(id: Id): Refund -> int {
    (r: Refund) => if r.id == id then 1 else 0
  }

  function IsDispute(id: Id): Dispute -> int {
    (d: Dispute) => if d.id == id then 1 else 0
  }

  function IsSettlement(id: Id): Settlement -> int {
    (s: Settlement) => if s.id == id then 1 else 0
  }

  /** One event for each thing committed under the id, and at most one such thing. */
  predicate Counted(t: Tables, skipped: seq<Refund>, id: Id) {
    && Count(t.outbox, PaymentCreated, id, PaymentsTopic) == (if id in t.payments then 1 else 0)
    && Count(t.outbox, PaymentAuthorized, id, PaymentsTopic) == Count(t.outbox, PaymentAuthorized, id, WebhooksTopic)
    && Count(t.outbox, RefundPendingEvent, id, PaymentsTopic)
       == SumBy(t.refunds, IsRefund(id)) + SumBy(skipped, IsRefund(id))
    && Count(t.outbox, DisputeCreated, id, PaymentsTopic) == SumBy(t.disputes, IsDispute(id)) <= 1
    && Count(t.outbox, SettlementCompleted, id, WebhooksTopic) == SumBy(t.settlements, IsSettlement(id)) <= 1
    && SumBy(t.refunds, IsRefund(id)) <= 1
  }

  ghost predicate LogOk(t: Tables, skipped: seq<Refund>) {
    && (forall i :: 0 <= i < |t.outbox| ==> EventOk(t.outbox[i]))
    && (forall id :: Counted(t, skipped, id))
  }

  // ---------- what a transaction announces ----------

  lemma CountMore(log: seq<Event>, news: seq<Event>, kind: EventType, id: Id, topic: Topic)
    ensures Count(log + news, kind, id, topic) == Count(log, kind, id, topic) + Count(news, kind, id, topic)
  {
    SumAppend(log, news, OfKind(kind, id, topic));
  }

  lemma CountOne(e: Event, kind: EventType, id: Id, topic: Topic)
    ensures Count([e], kind, id, topic) == OfKind(kind, id, topic)(e)
  {
    SumSnoc([], e, OfKind(kind, id, topic));
    assert [] + [e] == [e];
  }

  lemma CountTwo(e: Event, f: Event, kind: EventType, id: Id, topic: Topic)
    ensures Count([e, f], kind, id, topic) == OfKind(kind, id, topic)(e) + OfKind(kind, id, topic)(f)
  {
    CountOne(e, kind, id, topic);
    CountOne(f, kind, id, topic);
    CountMore([e], [f], kind, id, topic);
    assert [e] + [f] == [e, f];
  }

  /** How many things of each sort a transaction adds under the id. */
  predicate Adds(t: Tables, u: Tables, skipped: seq<Refund>, skipped': seq<Refund>, news: seq<Event>, id: Id) {
    && Count(news, PaymentCreated, id, PaymentsTopic)
       == (if id in u.payments then 1 else 0) - (if id in t.payments then 1 else 0)
    && Count(news, PaymentAuthorized, id, PaymentsTopic) == Count(news, PaymentAuthorized, id, WebhooksTopic)
    && SumBy(u.refunds, IsRefund(id)) + SumBy(skipped', IsRefund(id))
       == SumBy(t.refunds, IsRefund(id)) + SumBy(skipped, IsRefund(id)) + Count(news, RefundPendingEvent, id, PaymentsTopic)
    && SumBy(u.disputes, IsDispute(id)) == SumBy(t.disputes, IsDispute(id)) + Count(news, DisputeCreated, id, PaymentsTopic)
    && SumBy(u.settlements, IsSettlement(id))
       == SumBy(t.settlements, IsSettlement(id)) + Count(news, SettlementCompleted, id, WebhooksTopic)
    && SumBy(u.refunds, IsRefund(id)) <= 1 && SumBy(u.disputes, IsDispute(id)) <= 1
    && SumBy(u.settlements, IsSettlement(id)) <= 1
  }

  lemma AnnouncedOk(t: Tables, u: Tables, skipped: seq<Refund>, skipped': seq<Refund>, news: seq<Event>)
    requires LogOk(t, skipped) && u.outbox == t.outbox + news
    requires forall i :: 0 <= i < |news| ==> EventOk(news[i])
    requires forall id :: Adds(t, u, skipped, skipped', news, id)
    ensures LogOk(u, skipped')
  {
    forall i | 0 <= i < |u.outbox| ensures EventOk(u.outbox[i]) {
      assert u.outbox[i] == if i < |t.outbox| then t.outbox[i] else news[i - |t.outbox|];
    }
    forall id ensures Counted(u, skipped', id) {
      assert Counted(t, skipped, id) && Adds(t, u, skipped, skipped', news, id);
      CountMore(t.outbox, news, PaymentCreated, id, PaymentsTopic);
      CountMore(t.outbox, news, PaymentAuthorized, id, PaymentsTopic);
      CountMore(t.outbox, news, PaymentAuthorized, id, WebhooksTopic);
      CountMore(t.outbox, news, RefundPendingEvent, id, PaymentsTopic);
      CountMore(t.outbox, news, DisputeCreated, id, PaymentsTopic);
      CountMore(t.outbox, news, SettlementCompleted, id, WebhooksTopic);
    }
  }

  /** The event counts of one event, kind by kind. */
  lemma OneEvent(e: Event)
    ensures forall kind, id, topic :: Count([e], kind, id, topic) == OfKind(kind, id, topic)(e)
  {
    forall kind, id, topic ensures Count([e], kind, id, topic) == OfKind(kind, id, topic)(e) {
      CountOne(e, kind, id, topic);
    }
  }

  /** A transaction that announces one event and appends nothing else under any id. */
  lemma StatusAnnounced(t: Tables, u: Tables, skipped: seq<Refund>, e: Event)
    requires LogOk(t, skipped) && u.outbox == t.outbox + [e] && EventOk(e)
    requires e.kind == PaymentFailed || e.kind == PaymentCancelled || e.kind == RefundSucceededEvent
    requires u.payments.Keys == t.payments.Keys && u.refunds == t.refunds
    requires u.disputes == t.disputes && u.settlements == t.settlements
    ensures LogOk(u, skipped)
  {
    OneEvent(e);
    forall id ensures Adds(t, u, skipped, skipped, [e], id) {
      assert Counted(t, skipped, id);
    }
    AnnouncedOk(t, u, skipped, skipped, [e]);
  }

  lemma InsertAnnounced(t: Tables, u: Tables, skipped: seq<Refund>, id: Id, p: Payment)
    requires LogOk(t, skipped) && id !in t.payments && u.payments == t.payments[id := p]
    requires u.outbox == t.outbox + [PaymentEvent(PaymentCreated, id, PaymentsTopic)]
    requires u.refunds == t.refunds && u.disputes == t.disputes && u.settlements == t.settlements
    ensures LogOk(u, skipped)
  {
    var e := PaymentEvent(PaymentCreated, id, PaymentsTopic);
    OneEvent(e);
    forall other ensures Adds(t, u, skipped, skipped, [e], other) {
      assert Counted(t, skipped, other);
    }
    AnnouncedOk(t, u, skipped, skipped, [e]);
  }

  lemma ChargeAnnounced(t: Tables, u: Tables, skipped: seq<Refund>, kind: EventType, id: Id)
    requires LogOk(t, skipped) && (kind == PaymentCaptured || kind == PaymentAuthorized)
    requires u.outbox == t.outbox + [PaymentEvent(kind, id, PaymentsTopic)] + [PaymentEvent(kind, id, WebhooksTopic)]
    requires u.payments.Keys == t.payments.Keys && u.refunds == t.refunds
    requires u.disputes == t.disputes && u.settlements == t.settlements
    ensures LogOk(u, skipped)
  {
    var e, f := PaymentEvent(kind, id, PaymentsTopic), PaymentEvent(kind, id, WebhooksTopic);
    assert u.outbox == t.outbox + [e, f];
    forall other ensures Adds(t, u, skipped, skipped, [e, f], other) {
      assert Counted(t, skipped, other);
      CountTwo(e, f, PaymentCreated, other, PaymentsTopic);
      CountTwo(e, f, PaymentAuthorized, other, PaymentsTopic);
      CountTwo(e, f, PaymentAuthorized, other, WebhooksTopic);
      CountTwo(e, f, RefundPendingEvent, other, PaymentsTopic);
      CountTwo(e, f, DisputeCreated, other, PaymentsTopic);
      CountTwo(e, f, SettlementCompleted, other, WebhooksTopic);
    }
    AnnouncedOk(t, u, skipped, skipped, [e, f]);
  }

  lemma {:induction false} NoneWithId(rows: seq<Refund>, id: Id)
    requires forall i :: 0 <= i < |rows| ==> rows[i].id != id
    ensures SumBy(rows, IsRefund(id)) == 0
  {
    if rows != [] {
      NoneWithId(rows[..|rows| - 1], id);
    }
  }

  lemma RefundAnnounced(t: Tables, u: Tables, skipped: seq<Refund>, r: Refund)
    requires LogOk(t, skipped) && u.payments.Keys == t.payments.Keys
    requires u.outbox == t.outbox + [RefundEvent(RefundPendingEvent, r, PaymentsTopic)]
    requires if RefundKeyTaken(t, r) then u.refunds == t.refunds else u.refunds == t.refunds + [r] && !RefundIdTaken(t, r.id)
    requires u.disputes == t.disputes && u.settlements == t.settlements
    ensures LogOk(u, SkippedAfter(t, skipped, r))
  {
    var e, after := RefundEvent(RefundPendingEvent, r, PaymentsTopic), SkippedAfter(t, skipped, r);
    OneEvent(e);
    forall id ensures Adds(t, u, skipped, after, [e], id) {
      assert Counted(t, skipped, id);
      SumSnoc(t.refunds, r, IsRefund(id));
      SumSnoc(skipped, r, IsRefund(id));
      if !RefundKeyTaken(t, r) { NoneWithId(t.refunds, r.id); }
    }
    AnnouncedOk(t, u, skipped, after, [e]);
  }

  lemma DisputeAnnounced(t: Tables, u: Tables, skipped: seq<Refund>, d: Dispute)
    requires LogOk(t, skipped) && u.payments.Keys == t.payments.Keys && u.refunds == t.refunds
    requires u.outbox == t.outbox + [Event(DisputeCreated, d.id, Some(d.payment), PaymentsTopic)]
    requires u.disputes == t.disputes + [d] && u.settlements == t.settlements
    requires forall i :: 0 <= i < |t.disputes| ==> t.disputes[i].id != d.id
    ensures LogOk(u, skipped)
  {
    var e := Event(DisputeCreated, d.id, Some(d.payment), PaymentsTopic);
    OneEvent(e);
    forall id ensures Adds(t, u, skipped, skipped, [e], id) {
      assert Counted(t, skipped, id);
      SumSnoc(t.disputes, d, IsDispute(id));
      if id == d.id { SumZero(t.disputes, IsDispute(id)); }
    }
    AnnouncedOk(t, u, skipped, skipped, [e]);
  }

  lemma SettleAnnounced(t: Tables, u: Tables, skipped: seq<Refund>, s: Settlement)
    requires LogOk(t, skipped) && u.payments.Keys == t.payments.Keys && u.refunds == t.refunds
    requires u.outbox == t.outbox + [Event(SettlementCompleted, s.id, None, WebhooksTopic)]
    requires u.settlements == t.settlements + [s] && u.disputes == t.disputes
    requires forall i :: 0 <= i < |t.settlements| ==> t.settlements[i].id != s.id
    ensures LogOk(u, skipped)
  {
    var e := Event(SettlementCompleted, s.id, None, WebhooksTopic);
    OneEvent(e);
    forall id ensures Adds(t, u, skipped, skipped, [e], id) {
      assert Counted(t, skipped, id);
      SumSnoc(t.settlements, s, IsSettlement(id));
      if id == s.id { SumZero(t.settlements, IsSettlement(id)); }
    }
    AnnouncedOk(t, u, skipped, skipped, [e]);
  }

  /** An answer changes no id. */
  lemma AnswerAnnounced(t: Tables, skipped: seq<Refund>, id: Id, status: RefundStatus)
    requires LogOk(t, skipped)
    ensures LogOk(UpdateRefundStatus(t, id, status), skipped)
  {
    var u := UpdateRefundStatus(t, id, status);
    forall other ensures Counted(u, skipped, other) {
      assert Counted(t, skipped, other);
      SumPointwise(t.refunds, u.refunds, IsRefund(other));
    }
  }

  // ---------- every step ----------

  lemma CommittedCharge(cfg: Config, t: Tables, skipped: seq<Refund>, row: Payment, base: int, capture: Stamp, fee: Stamp)
    requires LogOk(t, skipped) && row.id in t.payments && CommitCharge(cfg, t, row, base, capture, fee).Ok?
    ensures LogOk(CommitCharge(cfg, t, row, base, capture, fee).value, skipped)
  {
    var u := CommitCharge(cfg, t, row, base, capture, fee).value;
    ChargedRows(cfg, t, row, base, capture, fee);
    ChargeAnnounced(t, u, skipped, if row.status == Captured then PaymentCaptured else PaymentAuthorized, row.id);
  }

  lemma InsertLogged(cfg: Config, s: System, a: Action)
    requires LogOk(s.db, s.skipped) && a.CreateInsert?
    ensures LogOk(Next(cfg, s, a).db, Next(cfg, s, a).skipped)
  {
    var p := NewPayment(a.payment);
    if a.req !in s.requests && InsertPaymentIdempotent(s.db, p).Inserted? {
      var u := Next(cfg, s, a).db;
      InsertAnnounced(s.db, u, s.skipped, p.id, u.payments[p.id]);
    }
  }

  lemma ChargeLogged(cfg: Config, s: System, a: Action)
    requires LogOk(s.db, s.skipped) && OwnIds(s.db) && (a.CreateFinish? || a.CaptureFinish?)
    ensures LogOk(Next(cfg, s, a).db, Next(cfg, s, a).skipped)
  {
    var row, base := ChargeCommits(cfg, s, a);
    if Next(cfg, s, a).db != s.db {
      CommittedCharge(cfg, s.db, s.skipped, row, base, a.capture, a.fee);
    }
  }

  lemma RefundLogged(cfg: Config, s: System, a: Action)
    requires LogOk(s.db, s.skipped) && a.RefundStart?
    ensures LogOk(Next(cfg, s, a).db, Next(cfg, s, a).skipped)
  {
    if a.req !in s.requests && CreateRefund(cfg, s.db, a.refund, a.stamp).Ok? {
      var r := CreateRefund(cfg, s.db, a.refund, a.stamp).value.1;
      RefundCommits(cfg, s.db, a.refund, a.stamp);
      RefundAnnounced(s.db, Next(cfg, s, a).db, s.skipped, r);
    }
  }

  lemma SettleLogged(cfg: Config, s: System, a: Action)
    requires LogOk(s.db, s.skipped) && a.Settle?
    ensures LogOk(Next(cfg, s, a).db, Next(cfg, s, a).skipped)
  {
    if SettleMerchant(cfg, s.db, a.id, a.merchant, a.locked, a.now).Ok? {
      var settlement := NewSettlement(cfg, s.db, a.id, a.merchant, a.locked);
      SettleCommits(cfg, s.db, a.id, a.merchant, a.locked, a.now);
      if settlement.members != {} {
        SettleAnnounced(s.db, Next(cfg, s, a).db, s.skipped, settlement);
      }
    }
  }

  lemma StatusLogged(cfg: Config, s: System, a: Action)
    requires LogOk(s.db, s.skipped) && (a.CreateFail? || a.Cancel? || a.OpenDispute? || a.RefundNotify? || a.RefundVerdict?)
    ensures LogOk(Next(cfg, s, a).db, Next(cfg, s, a).skipped)
  {
    var u := Next(cfg, s, a).db;
    if u != s.db {
      match a
      case CreateFail(req) =>
        StatusAnnounced(s.db, u, s.skipped, PaymentEvent(PaymentFailed, s.requests[req].payment.id, PaymentsTopic));
      case Cancel(id, _) =>
        StatusAnnounced(s.db, u, s.skipped, PaymentEvent(PaymentCancelled, id, PaymentsTopic));
      case OpenDispute(d) => DisputeAnnounced(s.db, u, s.skipped, d);
      case RefundNotify(req) =>
        StatusAnnounced(s.db, u, s.skipped, RefundEvent(RefundSucceededEvent, s.requests[req].refund, WebhooksTopic));
      case RefundVerdict(req, succeeded) =>
        AnswerAnnounced(s.db, s.skipped, s.requests[req].refund.id, if succeeded then RefundSucceeded else RefundFailed);
    }
  }

  lemma StepLogged(cfg: Config, s: System, a: Action)
    requires LogOk(s.db, s.skipped) && OwnIds(s.db)
    ensures LogOk(Next(cfg, s, a).db, Next(cfg, s, a).skipped)
  {
    match a
    case CreateInsert(_, _) => InsertLogged(cfg, s, a);
    case CreateFinish(_, _, _) => ChargeLogged(cfg, s, a);
    case CaptureFinish(_, _, _) => ChargeLogged(cfg, s, a);
    case RefundStart(_, _, _) => RefundLogged(cfg, s, a);
    case Settle(_, _, _, _) => SettleLogged(cfg, s, a);
    case CreateFail(_) => StatusLogged(cfg, s, a);
    case Cancel(_, _) => StatusLogged(cfg, s, a);
    case OpenDispute(_) => StatusLogged(cfg, s, a);
    case RefundNotify(_) => StatusLogged(cfg, s, a);
    case RefundVerdict(_, _) => StatusLogged(cfg, s, a);
    case FraudVerdict(_, _) =>
    case ChargeCall(_, _) =>
    case CaptureStart(_, _, _, _) =>
    case CaptureVerdict(_, _) =>
    case Crash(_) =>
  }

  lemma {:induction false} RunLogged(
    cfg: Config, initial: map<Id, MerchantBalance>, run: seq<Action>, states: seq<System>)
    requires Passes(cfg, Start(initial), run, states)
    ensures SystemOk(cfg, states[|run|], initial) && LogOk(states[|run|].db, states[|run|].skipped)
    decreases |run|
  {
    if run == [] {
      StartOk(cfg, initial);
    } else {
      var last := |run| - 1;
      PassesFront(cfg, Start(initial), run, states);
      RunLogged(cfg, initial, run[..last], states[..|run|]);
      OwnIdsOk(cfg, states[last], initial);
      StepKeeps(cfg, states[last], initial, run[last]);
      StepLogged(cfg, states[last], run[last]);
    }
  }

  /** In every reachable state the outbox holds exactly one event for each payment created, refund taken (its row
      skipped or not), dispute and settlement, an authorization's on both topics, each kind on its topic and about
      its payment; and no two refunds, disputes or settlements share an id. */
  lemma OneEventEach(cfg: Config, initial: map<Id, MerchantBalance>, s: System, id: Id)
    requires Reached(cfg, initial, s)
    ensures Counted(s.db, s.skipped, id)
    ensures forall i :: 0 <= i < |s.db.outbox| ==> EventOk(s.db.outbox[i])
  {
    var run, states :| Passes(cfg, Start(initial), run, states) && states[|run|] == s;
    RunLogged(cfg, initial, run, states);
  }

  // ---------- refund.succeeded ----------

  /** A succeeded refund is announced, or waits to be, only after the acquirer said so. */
  predicate AnnouncedTold(s: System, said: seq<Verdict>) {
    && (forall q :: q in s.requests && s.requests[q].RefundDone? ==> RefundAnswer(s.requests[q].refund.id, true) in said)
    && (forall i :: 0 <= i < |s.db.outbox| && s.db.outbox[i].kind == RefundSucceededEvent ==>
          RefundAnswer(s.db.outbox[i].aggregate, true) in said)
  }

  /** The log grows by no refund.succeeded. */
  predicate NoNotice(log: seq<Event>, longer: seq<Event>) {
    log <= longer && forall i :: |log| <= i < |longer| ==> longer[i].kind != RefundSucceededEvent
  }

  lemma ChargeNotice(cfg: Config, t: Tables, row: Payment, base: int, capture: Stamp, fee: Stamp)
    requires CommitCharge(cfg, t, row, base, capture, fee).Ok?
    ensures NoNotice(t.outbox, CommitCharge(cfg, t, row, base, capture, fee).value.outbox)
  {
  }

  lemma ChargeNotices(cfg: Config, s: System, a: Action)
    requires a.CreateFinish? || a.CaptureFinish?
    ensures NoNotice(s.db.outbox, Next(cfg, s, a).db.outbox)
  {
    var row, base := ChargeCommits(cfg, s, a);
    if Next(cfg, s, a).db != s.db {
      ChargeNotice(cfg, s.db, row, base, a.capture, a.fee);
    }
  }

  lemma RefundNotices(cfg: Config, s: System, a: Action)
    requires a.RefundStart?
    ensures NoNotice(s.db.outbox, Next(cfg, s, a).db.outbox)
  {
    if a.req !in s.requests && CreateRefund(cfg, s.db, a.refund, a.stamp).Ok? {
      RefundCommits(cfg, s.db, a.refund, a.stamp);
    }
  }

  lemma SettleNotices(cfg: Config, s: System, a: Action)
    requires a.Settle?
    ensures NoNotice(s.db.outbox, Next(cfg, s, a).db.outbox)
  {
    if SettleMerchant(cfg, s.db, a.id, a.merchant, a.locked, a.now).Ok? {
      SettleCommits(cfg, s.db, a.id, a.merchant, a.locked, a.now);
    }
  }

  lemma StatusNotices(cfg: Config, s: System, a: Action)
    requires a.CreateInsert? || a.CreateFail? || a.Cancel? || a.OpenDispute?
    ensures NoNotice(s.db.outbox, Next(cfg, s, a).db.outbox)
  {
    match a
    case CreateInsert(_, _) =>
    case CreateFail(_) =>
    case Cancel(id, merchant) => CancelNotice(s.db, id, merchant);
    case OpenDispute(d) => DisputeNotice(s.db, d);
  }

  lemma CancelNotice(t: Tables, id: Id, merchant: Id)
    ensures CancelPayment(t, id, merchant).Ok? ==> NoNotice(t.outbox, CancelPayment(t, id, merchant).value.0.outbox)
  {
  }

  lemma DisputeNotice(t: Tables, d: Dispute)
    ensures CreateDispute(t, d).Ok? ==> NoNotice(t.outbox, CreateDispute(t, d).value.outbox)
  {
  }

  lemma OtherNotices(cfg: Config, s: System, a: Action)
    requires !a.CreateFinish? && !a.CaptureFinish? && !a.RefundStart? && !a.RefundNotify?
    ensures NoNotice(s.db.outbox, Next(cfg, s, a).db.outbox)
  {
    if a.Settle? {
      SettleNotices(cfg, s, a);
    } else if a.CreateInsert? || a.CreateFail? || a.Cancel? || a.OpenDispute? {
      StatusNotices(cfg, s, a);
    }
  }

  /** Only a successful answer makes a refund done. */
  lemma DoneRequests(cfg: Config, s: System, a: Action)
    ensures forall q :: q in Next(cfg, s, a).requests && Next(cfg, s, a).requests[q].RefundDone? ==>
              || (q in s.requests && s.requests[q] == Next(cfg, s, a).requests[q])
              || Heard(s, a) == [RefundAnswer(Next(cfg, s, a).requests[q].refund.id, true)]
  {
  }

  lemma StepNotices(cfg: Config, s: System, said: seq<Verdict>, a: Action)
    requires AnnouncedTold(s, said)
    ensures AnnouncedTold(Next(cfg, s, a), said + Heard(s, a))
  {
    DoneRequests(cfg, s, a);
    if a.CreateFinish? || a.CaptureFinish? {
      ChargeNotices(cfg, s, a);
    } else if a.RefundStart? {
      RefundNotices(cfg, s, a);
    } else if !a.RefundNotify? {
      OtherNotices(cfg, s, a);
    }
  }

  lemma {:induction false} RunNotices(
    cfg: Config, initial: map<Id, MerchantBalance>, run: seq<Action>, states: seq<System>)
    requires Passes(cfg, Start(initial), run, states)
    ensures AnnouncedTold(states[|run|], Answers(run, states))
    decreases |run|
  {
    if run != [] {
      var last := |run| - 1;
      PassesFront(cfg, Start(initial), run, states);
      RunNotices(cfg, initial, run[..last], states[..|run|]);
      StepNotices(cfg, states[last], Answers(run[..last], states[..|run|]), run[last]);
    }
  }

  /** Subscribers hear refund.succeeded only of refunds that the acquirer confirmed, and that the table, unless
      a refund with the id was skipped, shows as succeeded. */
  lemma SucceededWasConfirmed(
    cfg: Config, initial: map<Id, MerchantBalance>, run: seq<Action>, states: seq<System>, i: nat)
    requires Passes(cfg, Start(initial), run, states)
    requires i < |states[|run|].db.outbox| && states[|run|].db.outbox[i].kind == RefundSucceededEvent
    ensures var s, id := states[|run|], states[|run|].db.outbox[i].aggregate;
            && RefundAnswer(id, true) in Answers(run, states)
            && (!SkippedId(s, id) ==> exists k :: 0 <= k < |s.db.refunds| && s.db.refunds[k].id == id
                                                 && s.db.refunds[k].status == RefundSucceeded)
  {
    RunNotices(cfg, initial, run, states);
    RunTells(cfg, initial, run, states);
    var s, id := states[|run|], states[|run|].db.outbox[i].aggregate;
    if !SkippedId(s, id) {
      assert RefundIdTaken(s.db, id);
      var k :| 0 <= k < |s.db.refunds| && s.db.refunds[k].id == id;
      assert Told(s.db.refunds[k], Answers(run, states));
    }
  }
}
