/** One pass of the outbox worker (crates/outbox-worker/src/worker.rs, run_once). */
module OutboxWorker {
  import opened Claims
  import opened Models
  import opened Outbox

  class OutboxTable {
    var rows: seq<Row>

    constructor (rows: seq<Row>)
      ensures this.rows == rows
    {
      this.rows := rows;
    }
  }

  class Worker {
    const db: OutboxTable
    const batchSize: nat

    constructor (db: OutboxTable, batchSize: nat)
      ensures this.db == db && this.batchSize == batchSize
    {
      this.db := db;
      this.batchSize := batchSize;
    }

    /** Frees the rows whose lease ran out. */
    method ReclaimExpired(now: int)
      modifies db
      ensures db.rows == Reclaim(old(db.rows), now)
    {
      for i := 0 to |db.rows|
        invariant |db.rows| == |old(db.rows)|
        invariant forall k :: 0 <= k < i ==> db.rows[k] == Reclaimed(old(db.rows)[k], now)
        invariant forall k :: i <= k < |db.rows| ==> db.rows[k] == old(db.rows)[k]
      {
        if db.rows[i].Expired(now) {
          db.rows := db.rows[i := db.rows[i].(lockedAt := None)];
        }
      }
    }

    /** The oldest candidates, up to the batch size. */
    method SelectBatch(held: set<nat>) returns (batch: seq<nat>)
      ensures Distinct(batch)
      ensures OldestPrefix(db.rows, held, batchSize, Ids(batch))
    {
      var candidates := set i: nat | i < |db.rows| && db.rows[i].Eligible() && i !in held;
      assert candidates == Candidates(db.rows, held);
      batch := TakeSmallest(CreatedAt(db.rows), candidates, batchSize);
    }

    method LockBatch(batch: seq<nat>, now: int)
      requires forall i :: i in batch ==> i < |db.rows|
      modifies db
      ensures db.rows == Claim(old(db.rows), Ids(batch), now)
    {
      for k := 0 to |batch|
        invariant |db.rows| == |old(db.rows)|
        invariant db.rows == Claim(old(db.rows), Ids(batch[..k]), now)
      {
        assert batch[k] in batch;
        db.rows := db.rows[batch[k] := db.rows[batch[k]].(lockedAt := Some(now))];
        assert batch[..k + 1] == batch[..k] + [batch[k]];
      }
      assert batch[..|batch|] == batch;
    }

    /** Collects the broker's answers, in whatever order the sends complete. */
    method SendAll(completed: seq<nat>, acknowledged: set<nat>) returns (published: seq<nat>, failed: seq<nat>)
      requires Distinct(completed)
      ensures Distinct(published) && Distinct(failed)
      ensures Ids(published) == Ids(completed) * acknowledged
      ensures Ids(failed) == Ids(completed) - acknowledged
    {
      published, failed := [], [];
      for k := 0 to |completed|
        invariant Distinct(published) && Distinct(failed)
        invariant Ids(published) == Ids(completed[..k]) * acknowledged
        invariant Ids(failed) == Ids(completed[..k]) - acknowledged
      {
        assert completed[..k + 1] == completed[..k] + [completed[k]];
        IdsSnoc(completed[..k], completed[k]);
        assert completed[k] !in Ids(completed[..k]);
        if completed[k] in acknowledged {
          IdsSnoc(published, completed[k]);
          assert completed[k] !in Ids(published);
          published := published + [completed[k]];
        } else {
          IdsSnoc(failed, completed[k]);
          assert completed[k] !in Ids(failed);
          failed := failed + [completed[k]];
        }
      }
      assert completed[..|completed|] == completed;
    }

    /** The final transaction: one UPDATE for what was sent, one per failure. */
    method CommitResults(published: seq<nat>, failed: seq<nat>)
      requires Distinct(failed) && Ids(published) !! Ids(failed)
      requires forall i :: i in published || i in failed ==> i < |db.rows|
      modifies db
      ensures db.rows == Conclude(old(db.rows), Ids(published), Ids(failed))
    {
      MarkPublished(published);
      ghost var marked := db.rows;
      for k := 0 to |failed|
        invariant |db.rows| == |marked|
        invariant db.rows == Conclude(marked, {}, Ids(failed[..k]))
      {
        var i := failed[k];
        assert i in failed && i !in Ids(failed[..k]);
        assert failed[..k + 1] == failed[..k] + [i];
        db.rows := db.rows[i := db.rows[i].(failedAttempts := db.rows[i].failedAttempts + 1, lockedAt := None)];
      }
      assert failed[..|failed|] == failed;
    }

    method MarkPublished(published: seq<nat>)
      requires forall i :: i in published ==> i < |db.rows|
      modifies db
      ensures db.rows == Conclude(old(db.rows), Ids(published), {})
    {
      for k := 0 to |published|
        invariant |db.rows| == |old(db.rows)|
        invariant db.rows == Conclude(old(db.rows), Ids(published[..k]), {})
      {
        var i := published[k];
        assert i in published;
        assert published[..k + 1] == published[..k] + [i];
        db.rows := db.rows[i := db.rows[i].(published := true, lockedAt := None)];
      }
      assert published[..|published|] == published;
    }

    /** A whole pass without interference: exactly one round of the drain, on the oldest eligible rows. */
    method RunOnce(now: int, held: set<nat>, acknowledged: set<nat>) returns (count: nat, ghost batch: set<nat>)
      modifies db
      ensures OldestPrefix(Reclaim(old(db.rows), now), held, batchSize, batch)
      ensures db.rows == Outbox.RunOnce(old(db.rows), Round(now, batchSize, batch, acknowledged))
      ensures count == |batch * acknowledged|
    {
      ReclaimExpired(now);
      var events := SelectBatch(held);
      batch := Ids(events);
      if events == [] {
        assert db.rows == Outbox.RunOnce(old(db.rows), Round(now, batchSize, batch, acknowledged));
        return 0, batch;
      }
      BatchInRange(db.rows, held, batchSize, events);
      LockBatch(events, now);
      var published, failed := SendAll(events, acknowledged);
      assert forall i :: i in published || i in failed ==> i in Ids(published) || i in Ids(failed);
      assert forall i :: i in published || i in failed ==> i in Ids(events);
      CommitResults(published, failed);
      IdsSize(published);
      return |published|, batch;
    }
  }

  lemma BatchInRange(rows: seq<Row>, held: set<nat>, limit: nat, events: seq<nat>)
    requires OldestPrefix(rows, held, limit, Ids(events))
    ensures forall i :: i in events ==> i < |rows|
  {
    forall i | i in events ensures i < |rows| {
      assert i in Ids(events);
    }
  }
}
