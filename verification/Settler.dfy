/** The settlement worker (crates/settlement-worker/src/settler.rs). */
module Settler {
  import opened Models
  import opened Sums
  import opened Fees
  import opened Ledger
  import opened Schema
  import opened Transactions
  import opened Db

  /** Adds up the captured amounts of the selected rows, in whatever order they come. */
  method TotalOf(tx: Transaction, ids: set<Id>) returns (total: int)
    requires ids <= tx.payments.Keys
    ensures total == SumMap(Rows(tx.View(), ids), ChargedAmount())
  {
    total := 0;
    var rest := ids;
    while rest != {}
      invariant rest <= ids
      invariant total + SumMap(Rows(tx.View(), rest), ChargedAmount()) == SumMap(Rows(tx.View(), ids), ChargedAmount())
    {
      var id :| id in rest;
      SumMapRemove(Rows(tx.View(), rest), id, ChargedAmount());
      assert Rows(tx.View(), rest) - {id} == Rows(tx.View(), rest - {id});
      total := total + tx.payments[id].capturedAmount.GetOr(tx.payments[id].amount);
      rest := rest - {id};
    }
    assert Rows(tx.View(), rest) == map[];
  }

  /** Captured and not yet settled, as the batch query selects. */
  predicate Owing(p: Payment) {
    Unsettled(p, p.merchant)
  }

  function OwingMerchants(t: Tables): set<Id> {
    set p | p in t.payments && Owing(t.payments[p]) :: t.payments[p].merchant
  }

  /** What one settlement transaction does to the payment rows. */
  lemma SettledPayments(cfg: Config, t: Tables, id: Id, merchant: Id, locked: set<Id>, now: int)
    requires Transactions.SettleMerchant(cfg, t, id, merchant, locked, now).Ok?
    ensures var u := Transactions.SettleMerchant(cfg, t, id, merchant, locked, now).value.0;
            && u.payments.Keys == t.payments.Keys
            && forall p :: p in t.payments ==>
                 if p !in locked && Unsettled(t.payments[p], merchant)
                 then u.payments[p].merchant == merchant && !Owing(u.payments[p])
                 else u.payments[p] == t.payments[p]
  {
    var s := NewSettlement(cfg, t, id, merchant, locked);
    assert forall p :: p in t.payments ==> (p in s.members <==> p !in locked && Unsettled(t.payments[p], merchant));
  }

  /** A batch under way: merchants still waiting or failed are untouched, the others are settled but for
      locked rows. */
  predicate Progress(before: Tables, t: Tables, locked: set<Id>, waiting: set<Id>, failed: set<Id>) {
    && t.payments.Keys == before.payments.Keys
    && forall p :: p in before.payments ==>
         && t.payments[p].merchant == before.payments[p].merchant
         && if p in locked || before.payments[p].merchant in waiting || before.payments[p].merchant in failed
               || !Owing(before.payments[p])
            then t.payments[p] == before.payments[p]
            else !Owing(t.payments[p])
  }

  lemma ProgressStep(
    cfg: Config, before: Tables, t: Tables, locked: set<Id>, waiting: set<Id>, failed: set<Id>, id: Id, merchant: Id,
    now: int)
    requires Progress(before, t, locked, waiting, failed) && merchant in waiting && merchant !in failed
    ensures match Transactions.SettleMerchant(cfg, t, id, merchant, locked, now)
            case Ok(done) => Progress(before, done.0, locked, waiting - {merchant}, failed)
            case Err(_) => Progress(before, t, locked, waiting - {merchant}, failed + {merchant})
  {
    if Transactions.SettleMerchant(cfg, t, id, merchant, locked, now).Ok? {
      SettledPayments(cfg, t, id, merchant, locked, now);
    }
  }

  class Worker {
    const cfg: Config
    const db: Store

    constructor (cfg: Config, db: Store)
      ensures this.cfg == cfg && this.db == db
    {
      this.cfg := cfg;
      this.db := db;
    }

    method SettleMerchant(id: Id, merchant: Id, locked: set<Id>, now: int) returns (r: Result<int>)
      modifies db
      ensures match Transactions.SettleMerchant(cfg, old(db.tables), id, merchant, locked, now)
              case Ok(done) => r == Ok(done.1) && db.tables == done.0
              case Err(e) => r == Err(e) && db.tables == old(db.tables)
    {
      var tx := new Transaction.Begin(db, cfg);
      var ids := set p | p in tx.payments && p !in locked && Unsettled(tx.payments[p], merchant);
      if ids == {} {
        return Ok(0);
      }
      var total := TotalOf(tx, ids);
      var fee := Fee(cfg.rate, total);
      var net := total - fee;
      var _ :- CommitSettlement(tx, Settlement(id, merchant, ids, total, fee, net), now);
      return Ok(net);
    }

    method CommitSettlement(tx: Transaction, s: Settlement, now: int) returns (r: Result<()>)
      requires tx.own == |tx.ledger|
      modifies tx, db
      ensures match Schema.InsertSettlement(old(tx.View()), s)
              case Ok(inserted) =>
                && r == Ok(())
                && db.tables == Publish(CreditBalance(MarkSettled(inserted, s.members, now), s.merchant, s.net, s.total),
                                        Event(SettlementCompleted, s.id, None, WebhooksTopic))
              case Err(e) => r == Err(e) && db.tables == old(db.tables)
    {
      var _ :- Db.InsertSettlement(tx, s);
      MarkPaymentsSettled(tx, s.members, now);
      CreditMerchant(tx, s.merchant, s.net, s.total);
      InsertOutboxEvent(tx, Event(SettlementCompleted, s.id, None, WebhooksTopic));
      r := tx.Commit(db);
    }

    /** Settles every merchant that has unsettled captures. Each settlement gets the next of the given ids;
        a merchant whose settlement fails is left for the next batch, and the others go on. */
    method RunSettlementBatch(uuids: seq<Id>, locked: set<Id>, now: int) returns (settled: nat, ghost failed: set<Id>)
      requires |uuids| >= |db.tables.payments|
      modifies db
      ensures Progress(old(db.tables), db.tables, locked, {}, failed)
      ensures settled + |failed| == |OwingMerchants(old(db.tables))|
    {
      ghost var before := db.tables;
      var merchants := SelectMerchants(locked);
      ghost var waiting := set m | m in merchants;
      settled, failed := 0, {};
      SetOfDistinct(merchants);
      for i := 0 to |merchants|
        invariant settled + |failed| == i && |waiting| == |merchants| - i
        invariant forall k :: i <= k < |merchants| ==> merchants[k] in waiting && merchants[k] !in failed
        invariant Progress(before, db.tables, locked, waiting, failed)
      {
        var m := merchants[i];
        var ok := SettleNext(before, uuids[i], m, locked, now, waiting, failed);
        waiting := waiting - {m};
        if ok {
          settled := settled + 1;
        } else {
          failed := failed + {m};
        }
      }
      assert waiting == {};
    }

    /** SELECT DISTINCT merchant_id, in whatever order the rows come. */
    method SelectMerchants(ghost locked: set<Id>) returns (merchants: seq<Id>)
      ensures |merchants| == |OwingMerchants(db.tables)| <= |db.tables.payments|
      ensures forall i, j :: 0 <= i < j < |merchants| ==> merchants[i] != merchants[j]
      ensures Progress(db.tables, db.tables, locked, set m | m in merchants, {})
    {
      var all := set p | p in db.tables.payments && Owing(db.tables.payments[p]) :: db.tables.payments[p].merchant;
      var rest := all;
      merchants := [];
      while rest != {}
        invariant |merchants| + |rest| == |all| && rest <= all
        invariant forall m :: m in all <==> m in rest || m in merchants
        invariant forall m :: m in merchants ==> m !in rest
        invariant forall i, j :: 0 <= i < j < |merchants| ==> merchants[i] != merchants[j]
      {
        var m :| m in rest;
        merchants, rest := merchants + [m], rest - {m};
      }
      MerchantsBounded(db.tables, all);
    }

    /** One merchant of the batch; an error is logged and the batch goes on. */
    method SettleNext(
      ghost before: Tables, id: Id, merchant: Id, locked: set<Id>, now: int, ghost waiting: set<Id>, ghost failed: set<Id>)
      returns (ok: bool)
      requires Progress(before, db.tables, locked, waiting, failed) && merchant in waiting && merchant !in failed
      modifies db
      ensures Progress(before, db.tables, locked, waiting - {merchant}, if ok then failed else failed + {merchant})
    {
      ProgressStep(cfg, before, db.tables, locked, waiting, failed, id, merchant, now);
      var r := SettleMerchant(id, merchant, locked, now);
      ok := r.Ok?;
    }
  }

  lemma {:induction false} SetOfDistinct(s: seq<Id>)
    requires forall i, j :: 0 <= i < j < |s| ==> s[i] != s[j]
    ensures |set m | m in s| == |s|
  {
    if s != [] {
      var front, last := s[..|s| - 1], s[|s| - 1];
      SetOfDistinct(front);
      assert (set m | m in s) == (set m | m in front) + {last};
    }
  }

  lemma {:induction false} MerchantsBounded(t: Tables, merchants: set<Id>)
    requires forall m :: m in merchants ==> exists p :: p in t.payments && t.payments[p].merchant == m
    ensures |merchants| <= |t.payments|
    decreases |t.payments|
  {
    if p :| p in t.payments {
      var rest := t.(payments := t.payments - {p});
      var m := t.payments[p].merchant;
      forall other | other in merchants - {m}
        ensures exists q :: q in rest.payments && rest.payments[q].merchant == other
      {
        var q :| q in t.payments && t.payments[q].merchant == other;
        assert q in rest.payments;
      }
      MerchantsBounded(rest, merchants - {m});
    } else {
      assert merchants == {};
    }
  }
}
