/** One pass of the webhook dispatcher (crates/webhook-service/src/retry_scheduler.rs). */
module RetryScheduler {
  import opened Claims
  import opened Models
  import opened Webhooks

  /** How one dispatch went: whether the UPDATE that counts it reached the database, the endpoint's answer,
      when it came, the jitter drawn, and whether the UPDATE that records it reached the database. */
  datatype Outcome = Outcome(counted: bool, ok: bool, at: int, jitter: real, recorded: bool)
  {
    predicate Done() {
      counted && recorded
    }
  }

  /** The row after its dispatch, with the counters read at the claim; without the first UPDATE nothing is
      posted. */
  function Dispatched(d: Delivery, attemptCount: int, maxAttempts: int, outcome: Outcome): Delivery
    requires attemptCount >= 0
  {
    if !outcome.counted then d
    else if !outcome.recorded then Counted(d)
    else if outcome.ok then Counted(d).(status := Success)
    else AfterFailure(Counted(d), maxAttempts, attemptCount + 1, outcome.at, outcome.jitter)
  }

  /** The row after the whole pass. */
  function Passed(d: Delivery, taken: bool, now: int, outcome: Outcome): Delivery
    requires d.attempts >= 0
  {
    var reclaimed := Reclaimed(d, now);
    if taken then Dispatched(Claimed(reclaimed, now), d.attempts, d.maxAttempts, outcome) else reclaimed
  }

  predicate Counters(rows: seq<Delivery>) {
    forall i :: 0 <= i < |rows| ==> rows[i].attempts >= 0
  }

  function DoneIds(ids: set<nat>, outcomes: nat -> Outcome): set<nat> {
    set i | i in ids && outcomes(i).Done()
  }

  lemma DoneGrows(ids: set<nat>, id: nat, outcomes: nat -> Outcome)
    requires id !in ids
    ensures |DoneIds(ids + {id}, outcomes)| == |DoneIds(ids, outcomes)| + (if outcomes(id).Done() then 1 else 0)
  {
    assert DoneIds(ids + {id}, outcomes) == DoneIds(ids, outcomes) + (if outcomes(id).Done() then {id} else {});
  }

  /** The steps of one dispatch: a failed UPDATE ends it as a crash would. */
  function DispatchSteps(w: World, id: TaskId, row: nat, outcome: Outcome): World {
    var claimed := Next(w, ClaimStep(id, row));
    if !outcome.counted then Next(claimed, CrashStep(id))
    else
      var posted := Next(Next(claimed, CountStep(id)), PostStep(id, outcome.ok));
      if !outcome.recorded then Next(posted, CrashStep(id))
      else Next(if outcome.at > w.now then Next(posted, Tick(outcome.at - w.now)) else posted,
                FinishStep(id, outcome.jitter))
  }

  /** A worker that makes the steps of one dispatch without interruption leaves its row as the dispatch says. */
  lemma DispatchIsTask(w: World, id: TaskId, row: nat, outcome: Outcome)
    requires id !in w.tasks && row < |w.rows| && w.rows[row].Due(w.now) && w.rows[row].attempts >= 0
    requires outcome.at >= w.now && Jitter(w.rows[row].attempts + 1, outcome.jitter)
    ensures var done := DispatchSteps(w, id, row, outcome);
            var d := w.rows[row];
            && done.rows == w.rows[row := Dispatched(Claimed(d, w.now), d.attempts, d.maxAttempts, outcome)]
            && done.tasks == w.tasks
  {
    var claimed := Next(w, ClaimStep(id, row));
    assert claimed.tasks - {id} == w.tasks;
    var posted := Next(Next(claimed, CountStep(id)), PostStep(id, outcome.ok));
    assert posted.rows == w.rows[row := Counted(Claimed(w.rows[row], w.now))];
    assert posted.tasks - {id} == w.tasks;
  }

  class DeliveryTable {
    var rows: seq<Delivery>

    constructor (rows: seq<Delivery>)
      ensures this.rows == rows
    {
      this.rows := rows;
    }
  }

  class RetryScheduler {
    const db: DeliveryTable

    constructor (db: DeliveryTable)
      ensures this.db == db
    {
      this.db := db;
    }

    /** Frees the deliveries whose worker overran its lease. */
    method ReclaimStale(now: int)
      modifies db
      ensures db.rows == Reclaim(old(db.rows), now)
    {
      for i := 0 to |db.rows|
        invariant |db.rows| == |old(db.rows)|
        invariant forall k :: 0 <= k < i ==> db.rows[k] == Reclaimed(old(db.rows)[k], now)
        invariant forall k :: i <= k < |db.rows| ==> db.rows[k] == old(db.rows)[k]
      {
        if db.rows[i].Stale(now) {
          db.rows := db.rows[i := db.rows[i].(status := Queued, startedAt := None)];
        }
      }
    }

    /** The deliveries due longest, at most twenty, now held by this worker. */
    method ClaimDue(now: int, held: set<nat>) returns (batch: seq<nat>)
      modifies db
      ensures Distinct(batch) && |batch| <= BATCH_SIZE
      ensures DueLongest(old(db.rows), now, held, Ids(batch))
      ensures |db.rows| == |old(db.rows)|
      ensures forall i :: 0 <= i < |db.rows| ==>
                db.rows[i] == if i in Ids(batch) then Claimed(old(db.rows)[i], now) else old(db.rows)[i]
    {
      var candidates := set i: nat | i < |db.rows| && db.rows[i].Due(now) && i !in held;
      assert candidates == Candidates(db.rows, now, held);
      batch := TakeSmallest(RetryTimes(db.rows), candidates, BATCH_SIZE);
      IdsSize(batch);
      for k := 0 to |batch|
        invariant |db.rows| == |old(db.rows)|
        invariant forall i :: 0 <= i < |db.rows| ==>
                    db.rows[i] == if i in Ids(batch[..k]) then Claimed(old(db.rows)[i], now) else old(db.rows)[i]
      {
        assert batch[k] in Ids(batch);
        assert batch[..k + 1] == batch[..k] + [batch[k]];
        IdsSnoc(batch[..k], batch[k]);
        db.rows := db.rows[batch[k] := db.rows[batch[k]].(status := Processing, startedAt := Some(now))];
      }
      assert batch[..|batch|] == batch;
    }

    /** Counts the attempt, posts, and records the answer, with the counters read at the claim; tells whether
        both UPDATEs went through. */
    method Dispatch(id: nat, attemptCount: int, maxAttempts: int, outcome: Outcome) returns (done: bool)
      requires id < |db.rows| && attemptCount >= 0
      modifies db
      ensures db.rows == old(db.rows)[id := Dispatched(old(db.rows)[id], attemptCount, maxAttempts, outcome)]
      ensures done == outcome.Done()
    {
      if !outcome.counted {
        return false;
      }
      db.rows := db.rows[id := db.rows[id].(attempts := db.rows[id].attempts + 1)];
      var newAttempt := attemptCount + 1;
      if !outcome.recorded {
        return false;
      }
      if outcome.ok {
        db.rows := db.rows[id := db.rows[id].(status := Success)];
      } else {
        HandleFailure(id, maxAttempts, newAttempt, outcome);
      }
      return true;
    }

    method HandleFailure(id: nat, maxAttempts: int, attempt: int, outcome: Outcome)
      requires id < |db.rows| && attempt >= 1
      modifies db
      ensures db.rows == old(db.rows)[id := AfterFailure(old(db.rows)[id], maxAttempts, attempt, outcome.at, outcome.jitter)]
    {
      if attempt >= maxAttempts {
        db.rows := db.rows[id := db.rows[id].(status := DeadLettered)];
      } else {
        db.rows := db.rows[id := db.rows[id].(nextRetryAt := outcome.at + Delay(attempt, outcome.jitter))];
      }
    }

    /** A whole pass without interference: the deliveries due longest are dispatched once each, in whatever
        order they complete, nothing else changes, and those whose UPDATEs went through are counted. */
    method RunOnce(now: int, held: set<nat>, outcomes: nat -> Outcome) returns (processed: nat, ghost batch: set<nat>)
      requires Counters(db.rows)
      modifies db
      ensures DueLongest(Reclaim(old(db.rows), now), now, held, batch)
      ensures |db.rows| == |old(db.rows)| && processed == |DoneIds(batch, outcomes)|
      ensures forall i :: 0 <= i < |db.rows| ==>
                db.rows[i] == Passed(old(db.rows)[i], i in batch, now, outcomes(i))
    {
      ReclaimStale(now);
      var deliveries := ClaimDue(now, held);
      ghost var claimed := db.rows;
      batch := Ids(deliveries);
      processed := 0;
      assert DoneIds(Ids([]), outcomes) == {};
      for k := 0 to |deliveries|
        invariant processed == |DoneIds(Ids(deliveries[..k]), outcomes)| && |db.rows| == |claimed| == |old(db.rows)|
        invariant forall i :: 0 <= i < |db.rows| ==>
                    db.rows[i] == if i in Ids(deliveries[..k])
                                  then Dispatched(claimed[i], claimed[i].attempts, claimed[i].maxAttempts, outcomes(i))
                                  else claimed[i]
      {
        var id := deliveries[k];
        assert id in batch && id !in Ids(deliveries[..k]);
        assert deliveries[..k + 1] == deliveries[..k] + [id];
        IdsSnoc(deliveries[..k], id);
        DoneGrows(Ids(deliveries[..k]), id, outcomes);
        var done := Dispatch(id, db.rows[id].attempts, db.rows[id].maxAttempts, outcomes(id));
        if done {
          processed := processed + 1;
        }
      }
      assert deliveries[..|deliveries|] == deliveries;
    }
  }
}
