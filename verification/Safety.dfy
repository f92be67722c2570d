/** The promises of the payment protocol, for every run and every interleaving. */
module Safety {
  import opened Models
  import opened Sums
  import opened Fees
  import opened HashChain
  import opened Ledger
  import opened Schema
  import opened Transactions
  import opened Protocol
  import opened Invariant
  import opened Preservation
  import opened Runs

  // ---------- captures ----------

  predicate Money(status: PaymentStatus) {
    status == Captured || status == Settled || status == Disputed
  }

  /** At most one capture pair per payment; with it the status is Captured, Settled or Disputed, although
      the creator's Failed write and the dispute's write check nothing. */
  lemma AtMostOneCapture(cfg: Config, initial: map<Id, MerchantBalance>, s: System, id: Id)
    requires Reached(cfg, initial, s)
    ensures var t := s.db;
            && 0 <= SumBy(t.ledger, CapturePairs(id)) <= 1
            && (SumBy(t.ledger, CapturePairs(id)) == 1 <==> HasCapture(t, id))
            && (HasCapture(t, id) ==>
                  && Money(t.payments[id].status)
                  && SumBy(t.ledger, CapturedIn(id)) == t.payments[id].capturedAmount.value > 0)
            && (id in t.payments && t.payments[id].status in {Captured, Settled} ==> HasCapture(t, id))
  {
    ReachedOk(cfg, initial, s);
    assert PaymentOk(cfg.rate, s.db, s.skipped, id);
  }

  lemma FinishAppends(cfg: Config, t: Tables, request: Payment, capture: Stamp, fee: Stamp)
    requires FinishCharge(cfg, t, request, capture, fee).Ok?
    ensures t.ledger <= FinishCharge(cfg, t, request, capture, fee).value.0.ledger
  {
    var row := FinishCharge(cfg, t, request, capture, fee).value.1;
    FinishIsCommit(cfg, t, request, capture, fee);
    ChargeAppends(cfg, t, row, row.amount, capture, fee);
  }

  lemma CaptureAppends(
    cfg: Config, t: Tables, id: Id, merchant: Id, amount: Option<int>, capture: Stamp, fee: Stamp)
    requires CapturePayment(cfg, t, id, merchant, amount, capture, fee).Ok?
    ensures t.ledger <= CapturePayment(cfg, t, id, merchant, amount, capture, fee).value.0.ledger
  {
    var row := CapturePayment(cfg, t, id, merchant, amount, capture, fee).value.1;
    CaptureIsCommit(cfg, t, id, merchant, amount, capture, fee);
    ChargeAppends(cfg, t, row, row.Charged(), capture, fee);
  }

  lemma RefundAppends(cfg: Config, t: Tables, request: RefundRequest, stamp: Stamp)
    requires CreateRefund(cfg, t, request, stamp).Ok?
    ensures t.ledger <= CreateRefund(cfg, t, request, stamp).value.0.ledger
  {
    var r := CreateRefund(cfg, t, request, stamp).value.1;
    RefundCommits(cfg, t, request, stamp);
    WrittenRows(cfg, t.ledger, |t.ledger|, stamp, RefundPosting(r.payment, r.merchant, r.currency, r.amount));
  }

  /** One step only appends to the ledger. */
  lemma LedgerAppends(cfg: Config, s: System, a: Action)
    ensures s.db.ledger <= Next(cfg, s, a).db.ledger
  {
    if a.CreateFinish? && a.req in s.requests && s.requests[a.req].Approved? {
      var p := s.requests[a.req].payment;
      if FinishCharge(cfg, s.db, p, a.capture, a.fee).Ok? {
        FinishAppends(cfg, s.db, p, a.capture, a.fee);
      }
    } else if a.CaptureFinish? && a.req in s.requests && s.requests[a.req].CaptureGranted? {
      var pc := s.requests[a.req];
      if CapturePayment(cfg, s.db, pc.id, pc.merchant, pc.amount, a.capture, a.fee).Ok? {
        CaptureAppends(cfg, s.db, pc.id, pc.merchant, pc.amount, a.capture, a.fee);
      }
    } else if a.RefundStart? && CreateRefund(cfg, s.db, a.refund, a.stamp).Ok? {
      RefundAppends(cfg, s.db, a.refund, a.stamp);
    } else {
      LedgerUntouched(cfg, s, a);
    }
  }

  lemma LedgerUntouched(cfg: Config, s: System, a: Action)
    requires a.CreateFinish? ==> !(a.req in s.requests && s.requests[a.req].Approved?)
    requires a.CaptureFinish? ==> !(a.req in s.requests && s.requests[a.req].CaptureGranted?)
    requires a.RefundStart? ==> CreateRefund(cfg, s.db, a.refund, a.stamp).Err?
    ensures Next(cfg, s, a).db.ledger == s.db.ledger
  {
  }

  lemma {:induction false} LedgerGrowsAlong(cfg: Config, s: System, run: seq<Action>, states: seq<System>)
    requires Passes(cfg, s, run, states)
    ensures s.db.ledger <= states[|run|].db.ledger
    decreases |run|
  {
    if run != [] {
      PassesFront(cfg, s, run, states);
      LedgerGrowsAlong(cfg, s, run[..|run| - 1], states[..|run|]);
      LedgerAppends(cfg, states[|run| - 1], run[|run| - 1]);
    }
  }

  /** Immutability: any later ledger extends any earlier one. */
  lemma LedgerGrows(cfg: Config, s: System, u: System)
    requires LeadsTo(cfg, s, u)
    ensures s.db.ledger <= u.db.ledger
  {
    var run, states :| Passes(cfg, s, run, states) && states[|run|] == u;
    LedgerGrowsAlong(cfg, s, run, states);
  }

  lemma {:induction false} PairsGrow(rows: seq<Entry>, longer: seq<Entry>, id: Id)
    requires rows <= longer
    ensures SumBy(rows, CapturePairs(id)) <= SumBy(longer, CapturePairs(id))
    decreases |longer|
  {
    if |rows| == |longer| {
      assert rows == longer;
    } else {
      PairsGrow(rows, longer[..|longer| - 1], id);
    }
  }

  /** A capture is final: no later step of any actor takes the money status away. */
  lemma CapturedForever(cfg: Config, initial: map<Id, MerchantBalance>, s: System, u: System, id: Id)
    requires Reached(cfg, initial, s) && LeadsTo(cfg, s, u)
    requires HasCapture(s.db, id)
    ensures HasCapture(u.db, id) && Money(u.db.payments[id].status)
  {
    LedgerGrows(cfg, s, u);
    PairsGrow(s.db.ledger, u.db.ledger, id);
    LeadsOn(cfg, Start(initial), s, u);
    AtMostOneCapture(cfg, initial, s, id);
    AtMostOneCapture(cfg, initial, u, id);
  }

  // ---------- balances ----------

  function CapturedOf(merchant: Id): Payment -> int {
    (p: Payment) => if p.merchant == merchant then p.capturedAmount.GetOr(0) else 0
  }

  function RefundedOf(merchant: Id): Payment -> int {
    (p: Payment) => if p.merchant == merchant then p.refundedAmount else 0
  }

  function FeesOf(rate: Rate, merchant: Id): Payment -> int {
    (p: Payment) =>
      if p.merchant == merchant && p.capturedAmount.Some? then CaptureFee(rate, p.capturedAmount.value) else 0
  }

  lemma {:induction false} FloatShares(rate: Rate, payments: map<Id, Payment>, m: Id)
    ensures SumMap(payments, ShareOf(rate, m, GatewayFloat))
         == SumMap(payments, RefundedOf(m)) - SumMap(payments, CapturedOf(m))
    decreases |payments|
  {
    if payments != map[] {
      var id :| id in payments;
      SumMapRemove(payments, id, ShareOf(rate, m, GatewayFloat));
      SumMapRemove(payments, id, RefundedOf(m));
      SumMapRemove(payments, id, CapturedOf(m));
      FloatShares(rate, payments - {id}, m);
    }
  }

  lemma {:induction false} PayableShares(rate: Rate, payments: map<Id, Payment>, m: Id)
    ensures SumMap(payments, ShareOf(rate, m, MerchantPayable))
         == -SumMap(payments, ShareOf(rate, m, GatewayFloat)) - SumMap(payments, FeesOf(rate, m))
    decreases |payments|
  {
    if payments != map[] {
      var id :| id in payments;
      SumMapRemove(payments, id, ShareOf(rate, m, MerchantPayable));
      SumMapRemove(payments, id, ShareOf(rate, m, GatewayFloat));
      SumMapRemove(payments, id, FeesOf(rate, m));
      PayableShares(rate, payments - {id}, m);
    }
  }

  lemma {:induction false} RefundsWithinCaptures(payments: map<Id, Payment>, m: Id)
    requires forall id :: id in payments ==> RowOk(payments[id])
    ensures SumMap(payments, RefundedOf(m)) <= SumMap(payments, CapturedOf(m))
    decreases |payments|
  {
    if payments != map[] {
      var id :| id in payments;
      SumMapRemove(payments, id, RefundedOf(m));
      SumMapRemove(payments, id, CapturedOf(m));
      RefundsWithinCaptures(payments - {id}, m);
    }
  }

  /** The folded account balances are a closed form over the payments table, and the gateway owes
      exactly what it holds. */
  lemma ClosedForm(cfg: Config, initial: map<Id, MerchantBalance>, s: System, m: Id)
    requires Reached(cfg, initial, s)
    ensures var t := s.db;
            var captured, refunded := SumMap(t.payments, CapturedOf(m)), SumMap(t.payments, RefundedOf(m));
            var fees := SumMap(t.payments, FeesOf(cfg.rate, m));
            && Balance(t.ledger, m, GatewayFloat) == refunded - captured
            && Balance(t.ledger, m, FeeIncome) == fees
            && Balance(t.ledger, m, MerchantPayable) == captured - fees - refunded
            && Balance(t.ledger, m, RefundReserve) == 0 && Balance(t.ledger, m, ChargebackReserve) == 0
            && Balance(t.ledger, m, MerchantPayable) + Balance(t.ledger, m, FeeIncome)
               == -Balance(t.ledger, m, GatewayFloat) >= 0
  {
    ReachedOk(cfg, initial, s);
    assert BalancesAgree(cfg.rate, s.db, m);
    forall id | id in s.db.payments ensures RowOk(s.db.payments[id]) {
      assert PaymentOk(cfg.rate, s.db, s.skipped, id);
    }
    SharesAddUp(cfg.rate, s.db.payments, m);
  }

  /** The sums of the shares, account by account. */
  lemma SharesAddUp(rate: Rate, payments: map<Id, Payment>, m: Id)
    requires forall id :: id in payments ==> RowOk(payments[id])
    ensures var captured, refunded := SumMap(payments, CapturedOf(m)), SumMap(payments, RefundedOf(m));
            var fees := SumMap(payments, FeesOf(rate, m));
            && SumMap(payments, ShareOf(rate, m, GatewayFloat)) == refunded - captured <= 0
            && SumMap(payments, ShareOf(rate, m, FeeIncome)) == fees
            && SumMap(payments, ShareOf(rate, m, MerchantPayable)) == captured - fees - refunded
            && SumMap(payments, ShareOf(rate, m, RefundReserve)) == 0
            && SumMap(payments, ShareOf(rate, m, ChargebackReserve)) == 0
  {
    FloatShares(rate, payments, m);
    PayableShares(rate, payments, m);
    SumMapEqual(payments, payments, ShareOf(rate, m, FeeIncome), FeesOf(rate, m));
    SumMapZero(payments, ShareOf(rate, m, RefundReserve));
    SumMapZero(payments, ShareOf(rate, m, ChargebackReserve));
    RefundsWithinCaptures(payments, m);
  }

  // ---------- refunds ----------

  /** Refunds never exceed what was charged; the column equals the payment's refund pairs, and exceeds its
      refund rows by exactly the refunds whose row insert was skipped. */
  lemma RefundsBounded(cfg: Config, initial: map<Id, MerchantBalance>, s: System, id: Id)
    requires Reached(cfg, initial, s)
    requires id in s.db.payments
    ensures var p := s.db.payments[id];
            && 0 <= p.refundedAmount <= p.Charged()
            && p.refundedAmount == SumBy(s.db.ledger, RefundedIn(id))
            && p.refundedAmount == SumBy(s.db.refunds, RefundRows(id)) + SumBy(s.skipped, RefundRows(id))
            && SumBy(s.skipped, RefundRows(id)) >= 0
  {
    ReachedOk(cfg, initial, s);
    assert PaymentOk(cfg.rate, s.db, s.skipped, id);
    SumZero(s.skipped, RefundRows(id));
  }

  function SucceededRows(id: Id): Refund -> int {
    (r: Refund) => if r.payment == id && r.status == RefundSucceeded then r.amount else 0
  }

  function NotSucceededRows(id: Id): Refund -> int {
    (r: Refund) => if r.payment == id && r.status != RefundSucceeded then r.amount else 0
  }

  lemma {:induction false} RowsSplit(rows: seq<Refund>, id: Id)
    ensures SumBy(rows, RefundRows(id)) == SumBy(rows, SucceededRows(id)) + SumBy(rows, NotSucceededRows(id))
  {
    if rows != [] {
      RowsSplit(rows[..|rows| - 1], id);
    }
  }

  /** The succeeded refunds of a payment never exceed what was charged. */
  lemma SucceededWithinCharged(cfg: Config, initial: map<Id, MerchantBalance>, s: System, id: Id)
    requires Reached(cfg, initial, s)
    requires id in s.db.payments
    ensures var t := s.db;
            0 <= SumBy(t.refunds, SucceededRows(id)) <= t.payments[id].Charged()
  {
    RefundsBounded(cfg, initial, s, id);
    ReachedOk(cfg, initial, s);
    var t := s.db;
    RowsSplit(t.refunds, id);
    SumZero(t.refunds, SucceededRows(id));
    SumZero(t.refunds, NotSucceededRows(id));
  }

  /** refunded_amount is the sum of succeeded refunds if and only if every refund row of the payment
      succeeded and none of its refunds reused a key. */
  lemma RefundedIsSucceeded(cfg: Config, initial: map<Id, MerchantBalance>, s: System, id: Id)
    requires Reached(cfg, initial, s)
    requires id in s.db.payments
    ensures s.db.payments[id].refundedAmount == SumBy(s.db.refunds, SucceededRows(id)) <==>
            && (forall i :: 0 <= i < |s.db.refunds| && s.db.refunds[i].payment == id
                  ==> s.db.refunds[i].status == RefundSucceeded)
            && (forall i :: 0 <= i < |s.skipped| ==> s.skipped[i].payment != id)
  {
    RefundsBounded(cfg, initial, s, id);
    ReachedOk(cfg, initial, s);
    RowsSplit(s.db.refunds, id);
    SumZero(s.db.refunds, NotSucceededRows(id));
    SumZero(s.skipped, RefundRows(id));
    assert forall i :: 0 <= i < |s.db.refunds| ==>
        (NotSucceededRows(id)(s.db.refunds[i]) == 0 <==>
           (s.db.refunds[i].payment == id ==> s.db.refunds[i].status == RefundSucceeded));
    assert forall i :: 0 <= i < |s.skipped| ==>
        (RefundRows(id)(s.skipped[i]) == 0 <==> s.skipped[i].payment != id);
  }

  // ---------- the outbox ----------

  /** Replaying a payment's committed events, with its settlement membership, yields its status column;
      a capture is announced once on each topic. */
  lemma OutboxTellsStatus(cfg: Config, initial: map<Id, MerchantBalance>, s: System, id: Id)
    requires Reached(cfg, initial, s)
    ensures var t := s.db;
            && ToldStatus(t, id) == (if id in t.payments then Some(t.payments[id].status) else None)
            && SumBy(t.outbox, Announcements(id, PaymentsTopic)) == SumBy(t.ledger, CapturePairs(id))
            && SumBy(t.outbox, Announcements(id, WebhooksTopic)) == SumBy(t.ledger, CapturePairs(id))
  {
    ReachedOk(cfg, initial, s);
    assert PaymentOk(cfg.rate, s.db, s.skipped, id);
  }

  // ---------- idempotency ----------

  predicate HasKey(p: Payment, merchant: Id, key: string) {
    p.merchant == merchant && p.key == Some(key)
  }

  predicate Asks(reply: Reply, merchant: Id, key: string) {
    reply.merchant == merchant && reply.key == Some(key)
  }

  ghost predicate OneRow(payments: map<Id, Payment>, merchant: Id, key: string) {
    forall i, j | i in payments && j in payments && HasKey(payments[i], merchant, key) && HasKey(payments[j], merchant, key)
      :: i == j
  }

  ghost predicate OneAnswer(replies: seq<Reply>, merchant: Id, key: string) {
    forall i, j | 0 <= i < |replies| && 0 <= j < |replies| && Asks(replies[i], merchant, key) && Asks(replies[j], merchant, key)
      :: replies[i].id == replies[j].id
  }

  /** Charges sent for any payment that carries the merchant's key. */
  function KeyCharges(t: Tables, merchant: Id, key: string): Id -> int {
    (id: Id) => if id in t.payments && HasKey(t.payments[id], merchant, key) then 1 else 0
  }

  lemma OneCharge(cfg: Config, initial: map<Id, MerchantBalance>, s: System, merchant: Id, key: string)
    requires SystemOk(cfg, s, initial)
    ensures 0 <= SumBy(s.charges, KeyCharges(s.db, merchant, key)) <= 1
  {
    if id :| id in s.db.payments && HasKey(s.db.payments[id], merchant, key) {
      forall i | 0 <= i < |s.charges|
        ensures KeyCharges(s.db, merchant, key)(s.charges[i]) == IsId(id)(s.charges[i])
      {
        if s.charges[i] in s.db.payments && s.charges[i] != id {
          assert !SameKey(s.db.payments[s.charges[i]], s.db.payments[id]);
        }
      }
      SumEqual(s.charges, KeyCharges(s.db, merchant, key), IsId(id));
      assert 0 <= ChargeCalls(s, id) <= 1;
    } else {
      SumZero(s.charges, KeyCharges(s.db, merchant, key));
    }
  }

  /** However many create_payment calls carry one (merchant, key): one row, at most one charge call, and
      every call that returns a payment returns the same one. */
  lemma Idempotent(cfg: Config, initial: map<Id, MerchantBalance>, s: System, merchant: Id, key: string)
    requires Reached(cfg, initial, s)
    ensures && OneRow(s.db.payments, merchant, key)
            && SumBy(s.charges, KeyCharges(s.db, merchant, key)) <= 1
            && OneAnswer(s.replies, merchant, key)
            && (forall i :: 0 <= i < |s.replies| ==> ReplyOk(s.db, s.replies[i]))
  {
    ReachedOk(cfg, initial, s);
    OneCharge(cfg, initial, s, merchant, key);
    forall i, j | 0 <= i < |s.replies| && 0 <= j < |s.replies|
                  && Asks(s.replies[i], merchant, key) && Asks(s.replies[j], merchant, key)
      ensures s.replies[i].id == s.replies[j].id
    {
      assert ReplyOk(s.db, s.replies[i]) && ReplyOk(s.db, s.replies[j]);
      assert SameKey(s.db.payments[s.replies[i].id], s.db.payments[s.replies[j].id]);
    }
    forall i, j | i in s.db.payments && j in s.db.payments
                  && HasKey(s.db.payments[i], merchant, key) && HasKey(s.db.payments[j], merchant, key)
      ensures i == j
    {
      assert SameKey(s.db.payments[i], s.db.payments[j]);
    }
  }

  /** One create_payment call in any reachable state: with a key that is taken it returns the one payment that has
      it and does nothing else; otherwise it inserts the payment as asked, unless the amount or the id is refused. */
  lemma CreateOutcome(cfg: Config, initial: map<Id, MerchantBalance>, s: System, req: Req, p: Payment)
    requires Reached(cfg, initial, s) && req !in s.requests
    ensures var u := Next(cfg, s, CreateInsert(req, p));
            if p.amount <= 0 then u == s
            else if p.key.Some? && exists id :: id in s.db.payments && HasKey(s.db.payments[id], p.merchant, p.key.value)
            then forall id :: id in s.db.payments && HasKey(s.db.payments[id], p.merchant, p.key.value) ==>
                   u == s.(replies := s.replies + [Reply(p.merchant, p.key, id)])
            else if p.id in s.db.payments then u == s
            else
              var row := Payment(p.id, p.merchant, p.amount, p.currency, Created, p.captureMethod, None, 0, p.key, None);
              && u.db == s.db.(payments := s.db.payments[p.id := row],
                               outbox := s.db.outbox + [Event(PaymentCreated, p.id, Some(p.id), PaymentsTopic)])
              && u == s.(db := u.db, requests := s.requests[req := Screening(row)])
  {
    ReachedOk(cfg, initial, s);
    var row := NewPayment(p);
    assert forall id :: id in s.db.payments ==>
        (SameKey(s.db.payments[id], row) <==> p.key.Some? && HasKey(s.db.payments[id], p.merchant, p.key.value));
    if InsertPaymentIdempotent(s.db, row).Existing? {
      var first := InsertPaymentIdempotent(s.db, row).id;
      forall id | id in s.db.payments && HasKey(s.db.payments[id], p.merchant, p.key.value) ensures id == first {
        assert SameKey(s.db.payments[id], s.db.payments[first]);
      }
    }
  }

  /** The caller of a create call that commits is told its payment; if the commit fails nothing has changed. */
  lemma FinishReplies(cfg: Config, s: System, req: Req, capture: Stamp, fee: Stamp)
    requires req in s.requests && s.requests[req].Approved?
    ensures var u, p := Next(cfg, s, CreateFinish(req, capture, fee)), s.requests[req].payment;
            && req !in u.requests
            && if FinishCharge(cfg, s.db, p, capture, fee).Ok? then u.replies == s.replies + [Reply(p.merchant, p.key, p.id)]
               else u.db == s.db && u.replies == s.replies
  {
  }

  // ---------- settlement ----------

  /** Every payment is settled at most once, what settlements pay out plus their fees is what was captured
      on the payments ever settled, available balances grow by the payouts, and pending ones shrink by the
      totals, but not below zero. */
  lemma SettlementConserves(cfg: Config, initial: map<Id, MerchantBalance>, s: System, m: Id, id: Id)
    requires Reached(cfg, initial, s)
    ensures var t := s.db;
            && 0 <= SumBy(t.settlements, Memberships(id)) <= 1
            && (SumBy(t.settlements, Memberships(id)) == 1 <==> id in t.payments && t.payments[id].settledAt.Some?)
            && SumBy(t.settlements, TotalsOf(m)) == SumMap(t.payments, SettledOf(m))
            && PayoutsAgree(t, initial, m)
            && (m in t.balances && initial[m].pending >= 0 ==>
                  var left := initial[m].pending - SumBy(t.settlements, TotalsOf(m));
                  t.balances[m].pending == if left > 0 then left else 0)
  {
    ReachedOk(cfg, initial, s);
    assert PaymentOk(cfg.rate, s.db, s.skipped, id);
    assert SettlementsAgree(s.db, m);
    assert PayoutsAgree(s.db, initial, m);
  }

  /** The fee a payment's capture posted to the ledger. */
  function PostedFees(t: Tables): Id -> int {
    (id: Id) => SumBy(t.ledger, FeesIn(id))
  }

  lemma MembersPosted(cfg: Config, t: Tables, skipped: seq<Refund>, members: set<Id>)
    requires forall id :: PaymentOk(cfg.rate, t, skipped, id)
    requires members <= t.payments.Keys
    requires forall id :: id in members ==> HasCapture(t, id)
    ensures SumMap(Rows(t, members), CaptureFeeOf(cfg.rate, ChargedAmount()))
         == SumMap(map id | id in members :: id, PostedFees(t))
  {
    var ids := map id | id in members :: id;
    forall id | id in members
      ensures CaptureFeeOf(cfg.rate, ChargedAmount())(Rows(t, members)[id]) == PostedFees(t)(ids[id])
    {
      assert PaymentOk(cfg.rate, t, skipped, id);
    }
    SumMapEqual(Rows(t, members), ids, CaptureFeeOf(cfg.rate, ChargedAmount()), PostedFees(t));
  }

  lemma FeeAgainstPosted(cfg: Config, t: Tables, skipped: seq<Refund>, s: Settlement)
    requires Proper(cfg.rate) && SettlementOk(cfg.rate, t, s)
    requires forall id :: PaymentOk(cfg.rate, t, skipped, id)
    ensures var posted := SumMap(map id | id in s.members :: id, PostedFees(t));
            posted <= s.fee <= posted + |s.members| - 1 && 0 <= s.net <= s.total
  {
    forall id | id in s.members ensures Rows(t, s.members)[id].Charged() >= 0 {
      assert PaymentOk(cfg.rate, t, skipped, id);
    }
    BatchFee(cfg.rate, Rows(t, s.members), ChargedAmount());
    MembersPosted(cfg, t, skipped, s.members);
    assert Rows(t, s.members).Keys == s.members;
  }

  /** A settlement's one fee on the total against the fees its members' captures posted to the ledger:
      never less, and less than one unit per member more. */
  lemma SettlementFeeAgainstLedger(cfg: Config, initial: map<Id, MerchantBalance>, s: System, i: nat)
    requires Reached(cfg, initial, s) && Proper(cfg.rate)
    requires i < |s.db.settlements|
    ensures var paid := s.db.settlements[i];
            var posted := SumMap(map id | id in paid.members :: id, PostedFees(s.db));
            && posted <= paid.fee <= posted + |paid.members| - 1
            && 0 <= paid.net <= paid.total && paid.net + paid.fee == paid.total
  {
    ReachedOk(cfg, initial, s);
    assert SettlementOk(cfg.rate, s.db, s.db.settlements[i]);
    FeeAgainstPosted(cfg, s.db, s.skipped, s.db.settlements[i]);
  }

  // ---------- the ledger ----------

  /** In every reachable ledger entries are paired and debits equal credits in any group of merchants,
      payments and currencies. */
  lemma LedgerBalanced(cfg: Config, initial: map<Id, MerchantBalance>, s: System, group: (Id, Id, Currency) -> bool)
    requires Reached(cfg, initial, s)
    ensures var rows := s.db.ledger;
            Paired(rows) && SumBy(rows, KindIn(Debit, group)) == SumBy(rows, KindIn(Credit, group))
  {
    ReachedOk(cfg, initial, s);
    DebitsEqualCredits(s.db.ledger, group);
  }

  /** Ids as UUIDs print them, and timestamps of ten digits. */
  predicate UuidRows(rows: seq<Entry>) {
    forall i :: 0 <= i < |rows| ==> |rows[i].id| == 36 && 1_000_000_000 <= rows[i].createdAt < 10_000_000_000
  }

  lemma {:induction false} PathEncodable(rows: seq<Entry>, i: nat, chain: Chain)
    requires Paired(rows) && UuidRows(rows) && i < |rows| && ChainTo(rows, i, chain)
    ensures chain.Encodable()
    decreases chain
  {
    assert PairAt(rows, 2 * (i / 2));
    if chain.parent != Root {
      var j :| 0 <= j < i && rows[j].merchant == rows[i].merchant && ChainTo(rows, j, chain.parent);
      PathEncodable(rows, j, chain.parent);
    }
  }

  /** Two rows of reachable ledgers have equal hashes if and only if the chains of ids, amounts and seconds
      behind them are equal; otherwise two strings hashed along the chains collide under SHA-256, and these
      are they. No other column is part of a chain. */
  lemma SameHashSameChain(
    cfg: Config, initial: map<Id, MerchantBalance>, s: System, u: System, i: nat, j: nat)
    returns (p: Chain, q: Chain, x: string, y: string)
    requires Reached(cfg, initial, s) && Reached(cfg, initial, u) && HexDigests(cfg.sha256)
    requires i < |s.db.ledger| && j < |u.db.ledger|
    ensures CommitsTo(cfg.sha256, s.db.ledger, i, p) && CommitsTo(cfg.sha256, u.db.ledger, j, q)
    ensures (UuidRows(s.db.ledger) ==> p.Encodable()) && (UuidRows(u.db.ledger) ==> q.Encodable())
    ensures p == q ==> s.db.ledger[i].hash == u.db.ledger[j].hash
    ensures p.Encodable() && q.Encodable() && s.db.ledger[i].hash == u.db.ledger[j].hash && p != q ==>
              x in Preimages(cfg.sha256, p) && y in Preimages(cfg.sha256, q) && Collide(cfg.sha256, x, y)
  {
    ReachedOk(cfg, initial, s);
    ReachedOk(cfg, initial, u);
    p := HashCommitsToPath(cfg.sha256, s.db.ledger, i);
    q := HashCommitsToPath(cfg.sha256, u.db.ledger, j);
    if UuidRows(s.db.ledger) { PathEncodable(s.db.ledger, i, p); }
    if UuidRows(u.db.ledger) { PathEncodable(u.db.ledger, j, q); }
    x, y := "", "";
    if p.Encodable() && q.Encodable() {
      x, y := HashExact(cfg.sha256, s.db.ledger, i, p, u.db.ledger, j, q);
    }
  }

  /** With the reference column checked at once, as the migration declares it, no capture ever commits. */
  lemma ImmediateReferenceBlocksCapture(cfg: Config, initial: map<Id, MerchantBalance>, s: System, id: Id)
    requires Reached(cfg, initial, s) && !cfg.deferredReference
    ensures s.db.ledger == [] && !HasCapture(s.db, id)
  {
    var run, states :| Passes(cfg, Start(initial), run, states) && states[|run|] == s;
    NothingEverPosted(cfg, Start(initial), run, states);
    AtMostOneCapture(cfg, initial, s, id);
  }

  lemma {:induction false} NothingEverPosted(cfg: Config, s: System, run: seq<Action>, states: seq<System>)
    requires Passes(cfg, s, run, states) && !cfg.deferredReference
    ensures states[|run|].db.ledger == s.db.ledger
    decreases |run|
  {
    if run != [] {
      PassesFront(cfg, s, run, states);
      NothingEverPosted(cfg, s, run[..|run| - 1], states[..|run|]);
      NothingPosted(cfg, states[|run| - 1], run[|run| - 1]);
    }
  }

  /** Whatever the ids: the debit row, inserted first, names a row that is not there yet. */
  lemma NothingPosted(cfg: Config, s: System, a: Action)
    requires !cfg.deferredReference
    ensures Next(cfg, s, a).db.ledger == s.db.ledger
  {
    var rows := s.db.ledger;
    if a.CreateFinish? && a.req in s.requests && s.requests[a.req].Approved? {
      FinishUnposted(cfg, s.db, s.requests[a.req].payment, a.capture, a.fee);
    } else if a.CaptureFinish? && a.req in s.requests && s.requests[a.req].CaptureGranted? {
      var pc := s.requests[a.req];
      CaptureUnposted(cfg, s.db, pc.id, pc.merchant, pc.amount, a.capture, a.fee);
    } else if a.RefundStart? && CreateRefund(cfg, s.db, a.refund, a.stamp).Ok? {
      var r := CreateRefund(cfg, s.db, a.refund, a.stamp).value.1;
      WriteOutcome(cfg, rows, |rows|, a.stamp, RefundPosting(r.payment, r.merchant, r.currency, r.amount));
    } else {
      LedgerUntouched(cfg, s, a);
    }
  }

  lemma FinishUnposted(cfg: Config, t: Tables, request: Payment, capture: Stamp, fee: Stamp)
    requires !cfg.deferredReference
    ensures FinishCharge(cfg, t, request, capture, fee).Ok? ==>
              FinishCharge(cfg, t, request, capture, fee).value.0.ledger == t.ledger
  {
    if FinishCharge(cfg, t, request, capture, fee).Ok? {
      var row := FinishCharge(cfg, t, request, capture, fee).value.1;
      WriteOutcome(cfg, t.ledger, |t.ledger|, capture, CapturePosting(row));
    }
  }

  lemma CaptureUnposted(
    cfg: Config, t: Tables, id: Id, merchant: Id, amount: Option<int>, capture: Stamp, fee: Stamp)
    requires !cfg.deferredReference
    ensures CapturePayment(cfg, t, id, merchant, amount, capture, fee).Err?
  {
    if CapturePayment(cfg, t, id, merchant, amount, capture, fee).Ok? {
      var row := CapturePayment(cfg, t, id, merchant, amount, capture, fee).value.1;
      WriteOutcome(cfg, t.ledger, |t.ledger|, capture, CapturePosting(row));
    }
  }

  /** Deferred to the commit, the same foreign key never fails: the pairs a transaction wrote name each other. */
  lemma DeferredReferenceHolds(cfg: Config, rows: seq<Entry>, p: Payment, base: int, capture: Stamp, fee: Stamp)
    requires PostCapture(cfg, rows, p, base, capture, fee).Ok?
    ensures CheckReferences(cfg, PostCapture(cfg, rows, p, base, capture, fee).value, |rows|).Ok?
  {
    var posted := WriteDoubleEntry(cfg, rows, |rows|, capture, CapturePosting(p)).value;
    WriteResolves(cfg, rows, |rows|, capture, CapturePosting(p), |rows|);
    WriteOutcome(cfg, rows, |rows|, capture, CapturePosting(p));
    if Fee(cfg.rate, base) > 0 {
      WriteResolves(cfg, posted, |rows|, fee, FeePosting(p, Fee(cfg.rate, base)), |rows|);
    }
  }
}
