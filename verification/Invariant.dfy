/** What every table state of a run satisfies, payment by payment and merchant by merchant. */
module Invariant {
  import opened Models
  import opened Sums
  import opened Fees
  import opened Ledger
  import opened Schema
  import opened Transactions

  // ---------- sums over the tables ----------

  function CapturePairs(id: Id): Entry -> int {
    (e: Entry) => if e.payment == id && e.kind == Debit && e.account == GatewayFloat then 1 else 0
  }

  function CapturedIn(id: Id): Entry -> int {
    (e: Entry) => if e.payment == id && e.kind == Debit && e.account == GatewayFloat then e.amount else 0
  }

  function RefundedIn(id: Id): Entry -> int {
    (e: Entry) => if e.payment == id && e.kind == Credit && e.account == GatewayFloat then e.amount else 0
  }

  function FeesIn(id: Id): Entry -> int {
    (e: Entry) => if e.payment == id && e.kind == Credit && e.account == FeeIncome then e.amount else 0
  }

  function RefundRows(id: Id): Refund -> int {
    (r: Refund) => if r.payment == id then r.amount else 0
  }

  function Announcements(id: Id, topic: Topic): Event -> int {
    (e: Event) => if e.kind == PaymentCaptured && e.payment == Some(id) && e.topic == topic then 1 else 0
  }

  function Memberships(id: Id): Settlement -> int {
    (s: Settlement) => if id in s.members then 1 else 0
  }

  // ---------- the status that the outbox log tells ----------

  function StatusOf(kind: EventType): Option<PaymentStatus> {
    match kind
    case PaymentCreated => Some(Created)
    case PaymentAuthorized => Some(Authorized)
    case PaymentCaptured => Some(Captured)
    case PaymentFailed => Some(Failed)
    case PaymentCancelled => Some(Cancelled)
    case DisputeCreated => Some(Disputed)
    case RefundPendingEvent | RefundSucceededEvent | SettlementCompleted => None
  }

  /** Replays a payment's committed events in commit order. */
  function Replay(log: seq<Event>, id: Id): Option<PaymentStatus> {
    if log == [] then None else
      var e := log[|log| - 1];
      if e.payment == Some(id) && StatusOf(e.kind).Some? then StatusOf(e.kind) else Replay(log[..|log| - 1], id)
  }

  function ToldStatus(t: Tables, id: Id): Option<PaymentStatus> {
    if Replay(t.outbox, id) == Some(Captured) && SumBy(t.settlements, Memberships(id)) > 0 then Some(Settled)
    else Replay(t.outbox, id)
  }

  // ---------- per payment ----------

  predicate HasCapture(t: Tables, id: Id) {
    id in t.payments && t.payments[id].capturedAmount.Some?
  }

  predicate RowOk(p: Payment) {
    && p.amount > 0
    && (p.capturedAmount.Some? ==>
          && p.capturedAmount.value > 0
          && (p.status == Captured || p.status == Settled || p.status == Disputed))
    && (p.capturedAmount.None? ==>
          && p.status != Captured && p.status != Settled
          && p.refundedAmount == 0 && p.settledAt.None?)
    && 0 <= p.refundedAmount <= p.Charged()
    && (p.settledAt.Some? ==> p.status == Settled || p.status == Disputed)
    && (p.status == Settled ==> p.settledAt.Some?)
    && (p.captureMethod == Automatic ==>
          p.status != Authorized && (p.capturedAmount.Some? ==> p.capturedAmount.value == p.amount))
  }

  predicate LedgerAgrees(rate: Rate, ledger: seq<Entry>, id: Id, captured: Option<int>, refunded: int) {
    && SumBy(ledger, CapturePairs(id)) == (if captured.Some? then 1 else 0)
    && SumBy(ledger, CapturedIn(id)) == captured.GetOr(0)
    && SumBy(ledger, RefundedIn(id)) == refunded
    && SumBy(ledger, FeesIn(id)) == (if captured.Some? then CaptureFee(rate, captured.value) else 0)
  }

  predicate OutboxAgrees(outbox: seq<Event>, id: Id, captured: bool) {
    && SumBy(outbox, Announcements(id, PaymentsTopic)) == (if captured then 1 else 0)
    && SumBy(outbox, Announcements(id, WebhooksTopic)) == (if captured then 1 else 0)
  }

  predicate KnownOk(rate: Rate, t: Tables, skipped: seq<Refund>, id: Id)
    requires id in t.payments
  {
    var p := t.payments[id];
    && p.id == id
    && RowOk(p)
    && LedgerAgrees(rate, t.ledger, id, p.capturedAmount, p.refundedAmount)
    && OutboxAgrees(t.outbox, id, p.capturedAmount.Some?)
    && p.refundedAmount == SumBy(t.refunds, RefundRows(id)) + SumBy(skipped, RefundRows(id))
    && SumBy(t.settlements, Memberships(id)) == (if p.settledAt.Some? then 1 else 0)
    && ToldStatus(t, id) == Some(p.status)
  }

  predicate UnknownOk(rate: Rate, t: Tables, skipped: seq<Refund>, id: Id) {
    && LedgerAgrees(rate, t.ledger, id, None, 0)
    && OutboxAgrees(t.outbox, id, false)
    && SumBy(t.refunds, RefundRows(id)) == 0
    && SumBy(skipped, RefundRows(id)) == 0
    && SumBy(t.settlements, Memberships(id)) == 0
    && Replay(t.outbox, id) == None
  }

  predicate PaymentOk(rate: Rate, t: Tables, skipped: seq<Refund>, id: Id) {
    if id in t.payments then KnownOk(rate, t, skipped, id) else UnknownOk(rate, t, skipped, id)
  }

  // ---------- per merchant ----------

  /** What one payment contributes to the balance of a ledger account. */
  function Share(rate: Rate, p: Payment, account: Account): int {
    var captured := p.capturedAmount.GetOr(0);
    var fee := if p.capturedAmount.Some? then CaptureFee(rate, captured) else 0;
    match account
    case GatewayFloat => p.refundedAmount - captured
    case MerchantPayable => captured - fee - p.refundedAmount
    case FeeIncome => fee
    case RefundReserve | ChargebackReserve => 0
  }

  function ShareOf(rate: Rate, merchant: Id, account: Account): Payment -> int {
    (p: Payment) => if p.merchant == merchant then Share(rate, p, account) else 0
  }

  function SettledOf(merchant: Id): Payment -> int {
    (p: Payment) => if p.merchant == merchant && p.settledAt.Some? then p.Charged() else 0
  }

  function TotalsOf(merchant: Id): Settlement -> int {
    (s: Settlement) => if s.merchant == merchant then s.net + s.fee else 0
  }

  function NetsOf(merchant: Id): Settlement -> int {
    (s: Settlement) => if s.merchant == merchant then s.net else 0
  }

  ghost predicate BalancesAgree(rate: Rate, t: Tables, merchant: Id) {
    forall account :: Balance(t.ledger, merchant, account) == SumMap(t.payments, ShareOf(rate, merchant, account))
  }

  ghost predicate SettlementsAgree(t: Tables, merchant: Id) {
    SumBy(t.settlements, TotalsOf(merchant)) == SumMap(t.payments, SettledOf(merchant))
  }

  /** What settlements over this total leave of a pending balance: no less than zero, once there was one. */
  function PendingLeft(initial: int, total: int): int {
    if total == 0 then initial else if initial > total then initial - total else 0
  }

  predicate PayoutsAgree(t: Tables, initial: map<Id, MerchantBalance>, merchant: Id) {
    && (merchant in t.balances <==> merchant in initial)
    && (merchant in initial ==>
          var b := t.balances[merchant];
          && b.available == initial[merchant].available + SumBy(t.settlements, NetsOf(merchant))
          && b.pending == PendingLeft(initial[merchant].pending, SumBy(t.settlements, TotalsOf(merchant))))
  }

  /** A settlement pays its members' captured amounts less one fee on their total. */
  ghost predicate SettlementOk(rate: Rate, t: Tables, s: Settlement) {
    && s.members != {} && s.members <= t.payments.Keys
    && (forall id :: id in s.members ==> HasCapture(t, id) && t.payments[id].merchant == s.merchant)
    && s.total == SumMap(Rows(t, s.members), ChargedAmount())
    && s.fee == Fee(rate, s.total) && s.net == s.total - s.fee
  }

  ghost predicate TablesOk(cfg: Config, t: Tables, skipped: seq<Refund>, initial: map<Id, MerchantBalance>) {
    && LedgerOk(cfg, t.ledger)
    && UniqueKeys(t.payments)
    && (forall id :: PaymentOk(cfg.rate, t, skipped, id))
    && (forall m :: BalancesAgree(cfg.rate, t, m))
    && (forall m :: SettlementsAgree(t, m))
    && (forall m :: PayoutsAgree(t, initial, m))
    && (forall i :: 0 <= i < |t.settlements| ==> SettlementOk(cfg.rate, t, t.settlements[i]))
    && (forall i :: 0 <= i < |t.refunds| ==> t.refunds[i].amount > 0)
    && (forall i :: 0 <= i < |skipped| ==> skipped[i].amount > 0)
  }

  // ---------- one payment changes, the rest is framed ----------

  /** The tables changed only at one payment, and the rows appended all belong to it. */
  ghost predicate OnlyPayment(t: Tables, u: Tables, skipped: seq<Refund>, skipped': seq<Refund>, id: Id) {
    && id in u.payments && u.payments == t.payments[id := u.payments[id]]
    && t.ledger <= u.ledger && t.refunds <= u.refunds && t.outbox <= u.outbox && skipped <= skipped'
    && (forall i :: |t.ledger| <= i < |u.ledger| ==>
          u.ledger[i].payment == id && u.ledger[i].merchant == u.payments[id].merchant)
    && (forall i :: |t.refunds| <= i < |u.refunds| ==> u.refunds[i].payment == id && u.refunds[i].amount > 0)
    && (forall i :: |t.outbox| <= i < |u.outbox| ==> u.outbox[i].payment == Some(id))
    && (forall i :: |skipped| <= i < |skipped'| ==> skipped'[i].payment == id && skipped'[i].amount > 0)
    && u.settlements == t.settlements && u.balances == t.balances
  }

  lemma {:induction false} ReplayFrame(log: seq<Event>, longer: seq<Event>, id: Id)
    requires log <= longer
    requires forall i :: |log| <= i < |longer| ==> longer[i].payment != Some(id) || StatusOf(longer[i].kind).None?
    ensures Replay(longer, id) == Replay(log, id)
    decreases |longer|
  {
    if |log| == |longer| {
      assert log == longer;
    } else {
      ReplayFrame(log, longer[..|longer| - 1], id);
    }
  }

  lemma LedgerFrame(rate: Rate, rows: seq<Entry>, longer: seq<Entry>, id: Id, captured: Option<int>, refunded: int)
    requires rows <= longer
    requires forall i :: |rows| <= i < |longer| ==> longer[i].payment != id
    requires LedgerAgrees(rate, rows, id, captured, refunded)
    ensures LedgerAgrees(rate, longer, id, captured, refunded)
  {
    SumExtend(rows, longer, CapturePairs(id));
    SumExtend(rows, longer, CapturedIn(id));
    SumExtend(rows, longer, RefundedIn(id));
    SumExtend(rows, longer, FeesIn(id));
  }

  lemma OutboxFrame(log: seq<Event>, longer: seq<Event>, id: Id, captured: bool)
    requires log <= longer
    requires forall i :: |log| <= i < |longer| ==> longer[i].kind != PaymentCaptured || longer[i].payment != Some(id)
    requires OutboxAgrees(log, id, captured)
    ensures OutboxAgrees(longer, id, captured)
  {
    SumExtend(log, longer, Announcements(id, PaymentsTopic));
    SumExtend(log, longer, Announcements(id, WebhooksTopic));
  }

  lemma OtherPaymentFrame(
    rate: Rate, t: Tables, u: Tables, skipped: seq<Refund>, skipped': seq<Refund>, id: Id, other: Id)
    requires OnlyPayment(t, u, skipped, skipped', id) && other != id
    requires PaymentOk(rate, t, skipped, other)
    ensures PaymentOk(rate, u, skipped', other)
  {
    var captured := if other in t.payments then t.payments[other].capturedAmount else None;
    var refunded := if other in t.payments then t.payments[other].refundedAmount else 0;
    LedgerFrame(rate, t.ledger, u.ledger, other, captured, refunded);
    OutboxFrame(t.outbox, u.outbox, other, captured.Some?);
    ReplayFrame(t.outbox, u.outbox, other);
    SumExtend(t.refunds, u.refunds, RefundRows(other));
    SumExtend(skipped, skipped', RefundRows(other));
  }

  /** How one payment's contribution to an account changed. */
  function ShareDelta(rate: Rate, t: Tables, u: Tables, id: Id, account: Account): int
    requires id in u.payments
  {
    Share(rate, u.payments[id], account) - if id in t.payments then Share(rate, t.payments[id], account) else 0
  }

  lemma MerchantFrame(rate: Rate, t: Tables, u: Tables, skipped: seq<Refund>, skipped': seq<Refund>, id: Id, m: Id)
    requires OnlyPayment(t, u, skipped, skipped', id)
    requires SameIdentity(t, u, id)
    requires forall account :: Balance(u.ledger, u.payments[id].merchant, account)
               == Balance(t.ledger, u.payments[id].merchant, account) + ShareDelta(rate, t, u, id, account)
    requires BalancesAgree(rate, t, m)
    ensures BalancesAgree(rate, u, m)
  {
    forall account
      ensures Balance(u.ledger, m, account) == SumMap(u.payments, ShareOf(rate, m, account))
    {
      SumMapUpdate(t.payments, id, u.payments[id], ShareOf(rate, m, account));
      if m != u.payments[id].merchant {
        SumExtend(t.ledger, u.ledger, OnAccount(m, account));
      }
    }
  }

  predicate SameSettlement(t: Tables, u: Tables, id: Id)
    requires id in u.payments
  {
    var settled := id in t.payments && t.payments[id].settledAt.Some?;
    && u.payments[id].settledAt.Some? == settled
    && (id in t.payments && t.payments[id].capturedAmount.Some? ==>
          u.payments[id].capturedAmount == t.payments[id].capturedAmount)
  }

  lemma SettlementFrame(rate: Rate, t: Tables, u: Tables, skipped: seq<Refund>, skipped': seq<Refund>, id: Id, s: Settlement)
    requires OnlyPayment(t, u, skipped, skipped', id)
    requires SameIdentity(t, u, id)
    requires SameSettlement(t, u, id)
    requires SettlementOk(rate, t, s)
    ensures SettlementOk(rate, u, s)
  {
    SumMapEqual(Rows(t, s.members), Rows(u, s.members), ChargedAmount(), ChargedAmount());
  }

  /** The row kept its identity: the columns no update touches. */
  predicate SameIdentity(t: Tables, u: Tables, id: Id)
    requires id in u.payments
  {
    id in t.payments ==>
      t.payments[id].merchant == u.payments[id].merchant && t.payments[id].key == u.payments[id].key
  }

  lemma KeysKept(t: Tables, u: Tables, id: Id)
    requires UniqueKeys(t.payments)
    requires id in u.payments && u.payments == t.payments[id := u.payments[id]]
    requires id in t.payments && SameIdentity(t, u, id)
    ensures UniqueKeys(u.payments)
  {
  }

  /** It is enough to look at the payment that changed. */
  lemma OnePaymentStep(
    cfg: Config, t: Tables, u: Tables, skipped: seq<Refund>, skipped': seq<Refund>,
    initial: map<Id, MerchantBalance>, id: Id)
    requires TablesOk(cfg, t, skipped, initial)
    requires OnlyPayment(t, u, skipped, skipped', id)
    requires LedgerOk(cfg, u.ledger) && UniqueKeys(u.payments)
    requires SameIdentity(t, u, id)
    requires SameSettlement(t, u, id)
    requires PaymentOk(cfg.rate, u, skipped', id)
    requires forall account :: Balance(u.ledger, u.payments[id].merchant, account)
               == Balance(t.ledger, u.payments[id].merchant, account) + ShareDelta(cfg.rate, t, u, id, account)
    ensures TablesOk(cfg, u, skipped', initial)
  {
    forall other ensures PaymentOk(cfg.rate, u, skipped', other) {
      if other != id {
        OtherPaymentFrame(cfg.rate, t, u, skipped, skipped', id, other);
      }
    }
    forall m ensures BalancesAgree(cfg.rate, u, m) {
      MerchantFrame(cfg.rate, t, u, skipped, skipped', id, m);
    }
    forall m ensures SettlementsAgree(u, m) {
      SettlementSumFrame(cfg.rate, t, u, skipped, skipped', id, m);
    }
    forall m ensures PayoutsAgree(u, initial, m) {
      assert PayoutsAgree(t, initial, m);
    }
    forall i | 0 <= i < |u.settlements| ensures SettlementOk(cfg.rate, u, u.settlements[i]) {
      SettlementFrame(cfg.rate, t, u, skipped, skipped', id, t.settlements[i]);
    }
    AmountsKept(t.refunds, u.refunds);
    AmountsKept(skipped, skipped');
  }

  lemma AmountsKept(rows: seq<Refund>, longer: seq<Refund>)
    requires rows <= longer
    requires forall i :: 0 <= i < |rows| ==> rows[i].amount > 0
    requires forall i :: |rows| <= i < |longer| ==> longer[i].amount > 0
    ensures forall i :: 0 <= i < |longer| ==> longer[i].amount > 0
  {
  }

  lemma SettlementSumFrame(
    rate: Rate, t: Tables, u: Tables, skipped: seq<Refund>, skipped': seq<Refund>, id: Id, m: Id)
    requires OnlyPayment(t, u, skipped, skipped', id)
    requires SameIdentity(t, u, id) && SameSettlement(t, u, id)
    requires PaymentOk(rate, t, skipped, id)
    requires SettlementsAgree(t, m)
    ensures SettlementsAgree(u, m)
  {
    SumMapUpdate(t.payments, id, u.payments[id], SettledOf(m));
  }
}
