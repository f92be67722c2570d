/** The outbox table under many leasing workers (crates/outbox-worker/src/worker.rs). */
module Outbox {
  import opened Claims
  import opened Models
  import opened Prefixes
  import opened Sums

  const MAX_FAILED_ATTEMPTS := 10
  const LEASE := 300

  /** An outbox row; its id is its position, since no row is ever deleted. */
  datatype Row = Row(createdAt: int, published: bool, failedAttempts: int, lockedAt: Option<int>)
  {
    predicate Eligible() {
      !published && lockedAt.None? && failedAttempts < MAX_FAILED_ATTEMPTS
    }

    predicate Expired(now: int) {
      !published && lockedAt.Some? && lockedAt.value < now - LEASE
    }

    /** Published, or dead-lettered after ten failed attempts. */
    predicate Finished() {
      published || failedAttempts >= MAX_FAILED_ATTEMPTS
    }
  }

  // ---------- the statements ----------

  function Reclaimed(r: Row, now: int): Row {
    if r.Expired(now) then r.(lockedAt := None) else r
  }

  function Reclaim(rows: seq<Row>, now: int): seq<Row> {
    seq(|rows|, i requires 0 <= i < |rows| => Reclaimed(rows[i], now))
  }

  /** Rows the claiming query may take: eligible, and not row-locked by a concurrent transaction. */
  function Candidates(rows: seq<Row>, held: set<nat>): set<nat> {
    set i: nat | i < |rows| && rows[i].Eligible() && i !in held
  }

  /** ORDER BY created_at LIMIT: the oldest candidates, as many as the limit allows. */
  ghost predicate OldestPrefix(rows: seq<Row>, held: set<nat>, limit: nat, batch: set<nat>) {
    SmallestPrefix(CreatedAt(rows), Candidates(rows, held), limit, batch)
  }

  predicate Claimable(rows: seq<Row>, held: set<nat>, i: nat) {
    && i < |rows| && i !in held && !rows[i].published && rows[i].lockedAt.None? && rows[i].failedAttempts < 10
  }

  /** Such a claim takes at most `limit` events, each unpublished, unlocked, with an attempt left and held by no
      other transaction, and leaves one of those only if it took `limit` that are no younger. */
  lemma ClaimExact(rows: seq<Row>, held: set<nat>, limit: nat, batch: set<nat>)
    ensures OldestPrefix(rows, held, limit, batch) <==>
              && |batch| <= limit
              && (forall i :: i in batch ==> Claimable(rows, held, i))
              && (forall j: nat :: Claimable(rows, held, j) && j !in batch ==>
                    |batch| == limit && forall i :: i in batch ==> rows[i].createdAt <= rows[j].createdAt)
  {
    assert forall i: nat :: i in Candidates(rows, held) <==> Claimable(rows, held, i);
    PrefixExact(CreatedAt(rows), Candidates(rows, held), limit, batch);
  }

  function CreatedAt(rows: seq<Row>): seq<int> {
    seq(|rows|, i requires 0 <= i < |rows| => rows[i].createdAt)
  }

  function Claim(rows: seq<Row>, batch: set<nat>, now: int): seq<Row> {
    seq(|rows|, i requires 0 <= i < |rows| => if i in batch then rows[i].(lockedAt := Some(now)) else rows[i])
  }

  function Concluded(r: Row, sent: bool, failed: bool): Row {
    var marked := if sent then r.(published := true, lockedAt := None) else r;
    if failed then marked.(failedAttempts := marked.failedAttempts + 1, lockedAt := None) else marked
  }

  function Conclude(rows: seq<Row>, sent: set<nat>, failed: set<nat>): seq<Row> {
    seq(|rows|, i requires 0 <= i < |rows| => Concluded(rows[i], i in sent, i in failed))
  }

  // ---------- workers, crashes and the clock ----------

  type WorkerId = nat

  /** A worker between its claim and its final transaction. */
  datatype Batch = Batch(claimed: set<nat>, claimedAt: int, sent: set<nat>, failed: set<nat>)

  /** `sends` records every send the broker acknowledged, `work` the rows in committed batches. */
  datatype World = World(rows: seq<Row>, now: int, workers: map<WorkerId, Batch>, sends: set<nat>, work: nat)

  datatype Step =
    | Append(createdAt: int)
    | Tick(seconds: nat)
    | ReclaimStep
    | ClaimStep(worker: WorkerId, limit: nat, held: set<nat>, batch: set<nat>)
    | SendStep(worker: WorkerId, row: nat, acknowledged: bool)
    | CommitStep(worker: WorkerId)
    | CrashStep(worker: WorkerId)

  ghost function Next(w: World, step: Step): World {
    match step
    case Append(createdAt) => w.(rows := w.rows + [Row(createdAt, false, 0, None)])
    case Tick(seconds) => w.(now := w.now + seconds)
    case ReclaimStep => w.(rows := Reclaim(w.rows, w.now))
    case ClaimStep(id, limit, held, batch) =>
      if id !in w.workers && batch != {} && OldestPrefix(w.rows, held, limit, batch) then
        w.(rows := Claim(w.rows, batch, w.now), workers := w.workers[id := Batch(batch, w.now, {}, {})])
      else w
    case SendStep(id, row, acknowledged) =>
      if id in w.workers && row in w.workers[id].claimed - w.workers[id].sent - w.workers[id].failed then
        var b := w.workers[id];
        if acknowledged
        then w.(workers := w.workers[id := b.(sent := b.sent + {row})], sends := w.sends + {row})
        else w.(workers := w.workers[id := b.(failed := b.failed + {row})])
      else w
    case CommitStep(id) =>
      if id in w.workers && w.workers[id].claimed == w.workers[id].sent + w.workers[id].failed then
        var b := w.workers[id];
        w.(rows := Conclude(w.rows, b.sent, b.failed), workers := w.workers - {id}, work := w.work + |b.claimed|)
      else w
    case CrashStep(id) => w.(workers := w.workers - {id})
  }

  function Start(now: int): World {
    World([], now, map[], {}, 0)
  }

  ghost function Run(now: int, run: seq<Step>): World {
    if run == [] then Start(now) else Next(Run(now, run[..|run| - 1]), run[|run| - 1])
  }

  // ---------- safety without any timing assumption ----------

  ghost predicate BatchOk(w: World, b: Batch) {
    && b.claimed != {} && b.sent + b.failed <= b.claimed && b.sent !! b.failed
    && (forall i :: i in b.claimed ==> i < |w.rows|)
    && b.sent <= w.sends
  }

  ghost predicate Safe(w: World) {
    && (forall i :: 0 <= i < |w.rows| && w.rows[i].published ==> i in w.sends)
    && (forall id :: id in w.workers ==> BatchOk(w, w.workers[id]))
    && (forall i :: 0 <= i < |w.rows| ==> w.rows[i].failedAttempts >= 0)
  }

  lemma SendSafe(w: World, step: Step)
    requires Safe(w) && step.SendStep?
    ensures Safe(Next(w, step))
  {
    var u := Next(w, step);
    forall id | id in u.workers ensures BatchOk(u, u.workers[id]) {
      assert BatchOk(w, w.workers[id]);
    }
  }

  lemma CommitSafe(w: World, id: WorkerId)
    requires Safe(w)
    ensures Safe(Next(w, CommitStep(id)))
  {
    var u := Next(w, CommitStep(id));
    if id in w.workers {
      assert BatchOk(w, w.workers[id]);
    }
    forall other | other in u.workers ensures BatchOk(u, u.workers[other]) {
      assert BatchOk(w, w.workers[other]);
    }
  }

  /** Steps that send nothing and conclude nothing. */
  lemma QuietSafe(w: World, step: Step)
    requires Safe(w) && !step.SendStep? && !step.CommitStep?
    ensures Safe(Next(w, step))
  {
    var u := Next(w, step);
    forall id | id in u.workers ensures BatchOk(u, u.workers[id]) {
      if id in w.workers {
        assert BatchOk(w, w.workers[id]);
      }
    }
  }

  lemma NextSafe(w: World, step: Step)
    requires Safe(w)
    ensures Safe(Next(w, step))
  {
    if step.SendStep? {
      SendSafe(w, step);
    } else if step.CommitStep? {
      CommitSafe(w, step.worker);
    } else {
      QuietSafe(w, step);
    }
  }

  /** Whatever the workers, their speed and their crashes: a published event was sent at least once. */
  lemma {:induction false} PublishedWasSent(now: int, run: seq<Step>)
    ensures Safe(Run(now, run))
  {
    if run != [] {
      PublishedWasSent(now, run[..|run| - 1]);
      NextSafe(Run(now, run[..|run| - 1]), run[|run| - 1]);
    }
  }

  /** No event leaves the table, published never reverts, and only a commit writes a published event. */
  lemma NothingLost(w: World, step: Step)
    ensures |w.rows| <= |Next(w, step).rows|
    ensures forall i :: 0 <= i < |w.rows| ==>
              && Next(w, step).rows[i].createdAt == w.rows[i].createdAt
              && (w.rows[i].published ==> Next(w, step).rows[i].published)
              && w.rows[i].failedAttempts <= Next(w, step).rows[i].failedAttempts
              && (w.rows[i].published && !step.CommitStep? ==> Next(w, step).rows[i] == w.rows[i])
  {
  }

  // ---------- within the lease ----------

  /** The worker still owns the row it claimed. */
  predicate Owns(w: World, b: Batch, i: nat) {
    && i < |w.rows| && !w.rows[i].published && w.rows[i].lockedAt == Some(b.claimedAt)
    && w.rows[i].failedAttempts < MAX_FAILED_ATTEMPTS
  }

  ghost predicate Leased(w: World) {
    && (forall id, i :: id in w.workers && i in w.workers[id].claimed ==> Owns(w, w.workers[id], i))
    && (forall a, b :: a in w.workers && b in w.workers && a != b ==> w.workers[a].claimed !! w.workers[b].claimed)
    && (forall i :: 0 <= i < |w.rows| ==> w.rows[i].failedAttempts <= MAX_FAILED_ATTEMPTS)
  }

  /** Some worker still holds events although its lease is over. */
  ghost predicate Overdue(w: World) {
    exists id :: id in w.workers && w.workers[id].claimed != {} && w.workers[id].claimedAt < w.now - LEASE
  }

  lemma ReclaimLeased(w: World)
    requires Leased(w)
    ensures Leased(Next(w, ReclaimStep)) <==> !Overdue(w)
  {
    var u := Next(w, ReclaimStep);
    if id :| id in w.workers && w.workers[id].claimed != {} && w.workers[id].claimedAt < w.now - LEASE {
      var i :| i in w.workers[id].claimed;
      assert Owns(w, w.workers[id], i) && !Owns(u, u.workers[id], i);
    } else {
      forall id, i | id in u.workers && i in u.workers[id].claimed ensures Owns(u, u.workers[id], i) {
        assert Owns(w, w.workers[id], i);
      }
    }
  }

  lemma ClaimLeased(w: World, step: Step)
    requires Leased(w) && step.ClaimStep?
    ensures Leased(Next(w, step))
  {
    var u := Next(w, step);
    forall id, i | id in u.workers && i in u.workers[id].claimed ensures Owns(u, u.workers[id], i) {
      if id in w.workers && i in w.workers[id].claimed {
        assert Owns(w, w.workers[id], i);
      }
    }
    forall a, b | a in u.workers && b in u.workers && a != b ensures u.workers[a].claimed !! u.workers[b].claimed {
      if i :| i in u.workers[a].claimed && i in u.workers[b].claimed {
        if a in w.workers { assert Owns(w, w.workers[a], i); }
        if b in w.workers { assert Owns(w, w.workers[b], i); }
      }
    }
  }

  lemma CommitLeased(w: World, id: WorkerId)
    requires Leased(w) && id in w.workers && BatchOk(w, w.workers[id])
    ensures Leased(Next(w, CommitStep(id)))
  {
    var u, b := Next(w, CommitStep(id)), w.workers[id];
    forall other, i | other in u.workers && i in u.workers[other].claimed ensures Owns(u, u.workers[other], i) {
      assert Owns(w, w.workers[other], i);
    }
    forall i | 0 <= i < |u.rows| ensures u.rows[i].failedAttempts <= MAX_FAILED_ATTEMPTS {
      if i in b.failed {
        assert Owns(w, b, i);
      }
    }
  }

  lemma AppendLeased(w: World, step: Step)
    requires Leased(w) && step.Append?
    ensures Leased(Next(w, step))
  {
    var u := Next(w, step);
    forall id, i | id in u.workers && i in u.workers[id].claimed ensures Owns(u, u.workers[id], i) {
      assert Owns(w, w.workers[id], i);
    }
  }

  /** The one step that can break the leases is a reclaim that meets an overdue worker, and it always does. */
  lemma LeaseExact(w: World, step: Step)
    requires Safe(w) && Leased(w)
    ensures Leased(Next(w, step)) <==> !(step.ReclaimStep? && Overdue(w))
  {
    match step
    case ReclaimStep => ReclaimLeased(w);
    case ClaimStep(_, _, _, _) => ClaimLeased(w, step);
    case CommitStep(id) =>
      if id in w.workers {
        CommitLeased(w, id);
      }
    case Append(_) => AppendLeased(w, step);
    case SendStep(_, _, _) => KeepsClaims(w, step);
    case Tick(_) => KeepsClaims(w, step);
    case CrashStep(_) => KeepsClaims(w, step);
  }

  lemma KeepsClaims(w: World, step: Step)
    requires Leased(w) && (step.SendStep? || step.Tick? || step.CrashStep?)
    ensures Leased(Next(w, step))
  {
  }

  /** Throughout the run every claimed event is its worker's alone, and none fails more than ten times. */
  ghost predicate AlwaysLeased(now: int, run: seq<Step>) {
    forall k :: 0 <= k <= |run| ==> Leased(Run(now, run[..k]))
  }

  ghost function MeetsNobody(now: int): (seq<Step>, Step) -> bool {
    (before: seq<Step>, step: Step) => !(step.ReclaimStep? && Overdue(Run(now, before)))
  }

  /** No reclaim of the run meets an overdue worker. */
  ghost predicate Punctual(now: int, run: seq<Step>) {
    AtEachStep(run, MeetsNobody(now))
  }

  lemma {:induction false} PunctualLeased(now: int, run: seq<Step>)
    requires Punctual(now, run)
    ensures Leased(Run(now, run)) && Safe(Run(now, run))
  {
    PublishedWasSent(now, run);
    if run != [] {
      var front := run[..|run| - 1];
      Front(run, MeetsNobody(now));
      PunctualLeased(now, front);
      LeaseExact(Run(now, front), run[|run| - 1]);
    }
  }

  /** Claims stay disjoint and attempts capped throughout a run if and only if no reclaim of it meets an
      overdue worker. */
  lemma ClaimsDisjoint(now: int, run: seq<Step>)
    ensures AlwaysLeased(now, run) <==> Punctual(now, run)
  {
    if Punctual(now, run) {
      forall k | 0 <= k <= |run| ensures Leased(Run(now, run[..k])) {
        Prefix(run, k, MeetsNobody(now));
        PunctualLeased(now, run[..k]);
      }
    } else {
      var k :| 0 <= k < |run| && !MeetsNobody(now)(run[..k], run[k]);
      PublishedWasSent(now, run[..k]);
      RunPrefix(now, run, k);
      if Leased(Run(now, run[..k])) {
        LeaseExact(Run(now, run[..k]), run[k]);
      }
    }
  }

  lemma RunPrefix(now: int, run: seq<Step>, k: nat)
    requires k < |run|
    ensures Run(now, run[..k + 1]) == Next(Run(now, run[..k]), run[k])
  {
    assert run[..k + 1][..k] == run[..k];
  }

  ghost predicate InLease(w: World) {
    forall id :: id in w.workers ==> w.now - w.workers[id].claimedAt <= 300
  }

  /** Workers that commit or vanish within five minutes of their claim are never met overdue. */
  lemma TimelyIsPunctual(now: int, run: seq<Step>)
    requires forall k :: 0 <= k <= |run| ==> InLease(Run(now, run[..k]))
    ensures Punctual(now, run) && AlwaysLeased(now, run)
  {
    forall k | 0 <= k < |run| ensures MeetsNobody(now)(run[..k], run[k]) {
      assert InLease(Run(now, run[..k]));
    }
    ClaimsDisjoint(now, run);
  }

  lemma {:induction false} NewWorker(ids: set<WorkerId>) returns (id: WorkerId)
    ensures forall other :: other in ids ==> other < id
  {
    if ids == {} {
      id := 0;
    } else {
      var some :| some in ids;
      var bound := NewWorker(ids - {some});
      id := if some < bound then bound else some + 1;
      assert forall other :: other in ids ==> other == some || other in ids - {some};
    }
  }

  /** A reclaim that meets an overdue worker always lets another worker claim an event the first still holds. */
  lemma OverdueShares(w: World) returns (late: WorkerId, other: WorkerId, claim: Step)
    requires Safe(w) && Leased(w) && Overdue(w)
    ensures var u := Next(Next(w, ReclaimStep), claim);
            && late != other && late in u.workers && other in u.workers
            && !(u.workers[late].claimed !! u.workers[other].claimed)
  {
    late :| late in w.workers && w.workers[late].claimed != {} && w.workers[late].claimedAt < w.now - LEASE;
    other := NewWorker(w.workers.Keys);
    var i :| i in w.workers[late].claimed;
    var rows := Reclaim(w.rows, w.now);
    var batch := Candidates(rows, {});
    claim := ClaimStep(other, |batch|, {}, batch);
    assert Owns(w, w.workers[late], i);
    assert i in batch;
    var u := Next(Next(w, ReclaimStep), claim);
    assert i in u.workers[late].claimed && i in u.workers[other].claimed;
  }

  /** Past the lease the promise breaks: two workers hold the same event. */
  lemma OverrunSharesClaim(now: int)
    ensures var run := [Append(now)] + [ClaimStep(1, 1, {}, {0})] + [Tick(LEASE + 1)] + [ReclaimStep]
                       + [ClaimStep(2, 1, {}, {0})];
            var w := Run(now, run);
            && 1 in w.workers && 2 in w.workers && w.workers[1].claimed == w.workers[2].claimed == {0}
            && !Punctual(now, run)
  {
    var a, b, c, d, e := Append(now), ClaimStep(1, 1, {}, {0}), Tick(LEASE + 1), ReclaimStep, ClaimStep(2, 1, {}, {0});
    RunExtends(now, [], a);
    RunExtends(now, [a], b);
    RunExtends(now, [a] + [b], c);
    RunExtends(now, [a] + [b] + [c], d);
    RunExtends(now, [a] + [b] + [c] + [d], e);
    assert [] + [a] == [a];
    var run := [a] + [b] + [c] + [d] + [e];
    OverrunSteps(now);
    assert run[..5] == run && run[..3] == [a] + [b] + [c];
    assert Overdue(Run(now, run[..3])) && !MeetsNobody(now)(run[..3], run[3]);
  }

  lemma OverrunSteps(now: int)
    ensures var w1 := Next(Start(now), Append(now));
            var w2 := Next(w1, ClaimStep(1, 1, {}, {0}));
            var w4 := Next(Next(w2, Tick(LEASE + 1)), ReclaimStep);
            var w5 := Next(w4, ClaimStep(2, 1, {}, {0}));
            && w5.workers == map[1 := Batch({0}, now, {}, {}), 2 := Batch({0}, now + LEASE + 1, {}, {})]
            && w5.now == now + LEASE + 1
  {
  }

  lemma RunExtends(now: int, run: seq<Step>, step: Step)
    ensures Run(now, run + [step]) == Next(Run(now, run), step)
  {
  }

  // ---------- the drain terminates ----------

  /** Attempts an event may still cost. */
  function Weight(): Row -> int {
    (r: Row) => if r.published || r.failedAttempts >= MAX_FAILED_ATTEMPTS then 0 else MAX_FAILED_ATTEMPTS - r.failedAttempts
  }

  function Measure(rows: seq<Row>): int {
    SumBy(rows, Weight())
  }

  lemma ConcludedWeight(r: Row, sent: bool, failed: bool)
    requires !(sent && failed) && (sent || failed ==> !r.Finished())
    ensures Weight()(Concluded(r, sent, failed)) + (if sent || failed then 1 else 0) <= Weight()(r)
  {
  }

  /** Concluding rows that were still live lowers the measure by at least one each. */
  lemma {:induction false} ConcludeLowers(rows: seq<Row>, sent: set<nat>, failed: set<nat>)
    requires sent !! failed
    requires Live(rows, sent) && Live(rows, failed)
    ensures Measure(Conclude(rows, sent, failed)) + |sent + failed| <= Measure(rows)
    decreases |rows|
  {
    if rows == [] {
      assert sent == {} && failed == {};
      assert sent + failed == {};
    } else {
      var last := |rows| - 1;
      ConcludePrefix(rows, sent, failed);
      ConcludedWeight(rows[last], last in sent, last in failed);
      RemoveOne(sent, failed, last);
      LiveFront(rows, sent);
      LiveFront(rows, failed);
      ConcludeLowers(rows[..last], sent - {last}, failed - {last});
    }
  }

  /** The rows named are neither published nor dead-lettered. */
  predicate Live(rows: seq<Row>, ids: set<nat>) {
    forall i :: i in ids ==> i < |rows| && !rows[i].Finished()
  }

  lemma LiveFront(rows: seq<Row>, ids: set<nat>)
    requires rows != [] && Live(rows, ids)
    ensures Live(rows[..|rows| - 1], ids - {|rows| - 1})
  {
  }

  lemma RemoveOne(a: set<nat>, b: set<nat>, x: nat)
    ensures |a + b| == |a - {x} + (b - {x})| + (if x in a || x in b then 1 else 0)
  {
    assert a - {x} + (b - {x}) == a + b - {x};
  }

  lemma ConcludePrefix(rows: seq<Row>, sent: set<nat>, failed: set<nat>)
    requires rows != []
    ensures var last := |rows| - 1;
            Measure(Conclude(rows, sent, failed))
            == Measure(Conclude(rows[..last], sent - {last}, failed - {last}))
             + Weight()(Concluded(rows[last], last in sent, last in failed))
  {
    var last := |rows| - 1;
    var done := Conclude(rows, sent, failed);
    assert done[..last] == Conclude(rows[..last], sent - {last}, failed - {last});
    assert done[last] == Concluded(rows[last], last in sent, last in failed);
  }

  lemma MeasureKept(w: World, step: Step)
    requires !step.Append? && !step.CommitStep?
    ensures Measure(Next(w, step).rows) == Measure(w.rows)
  {
    SumPointwise(w.rows, Next(w, step).rows, Weight());
  }

  lemma CommitLowers(w: World, id: WorkerId)
    requires Safe(w) && Leased(w) && id in w.workers
    ensures var u := Next(w, CommitStep(id));
            Measure(u.rows) + u.work <= Measure(w.rows) + w.work
  {
    var b := w.workers[id];
    assert BatchOk(w, b);
    if b.claimed == b.sent + b.failed {
      forall i | i in b.claimed ensures i < |w.rows| && !w.rows[i].Finished() {
        assert Owns(w, b, i);
      }
      ConcludeLowers(w.rows, b.sent, b.failed);
    }
  }

  /** The attempts made and the attempts still possible. */
  function Budget(w: World): int {
    w.work + Measure(w.rows)
  }

  lemma BudgetKept(w: World, step: Step)
    requires Safe(w) && Leased(w)
    ensures Budget(Next(w, step)) <= Budget(w) + (if step.Append? then MAX_FAILED_ATTEMPTS else 0)
  {
    if step.Append? {
      SumSnoc(w.rows, Row(step.createdAt, false, 0, None), Weight());
    } else if step.CommitStep? {
      if step.worker in w.workers {
        CommitLowers(w, step.worker);
      }
    } else {
      MeasureKept(w, step);
    }
  }

  /** All rows ever put into committed batches number at most ten per event: the work is bounded. */
  lemma {:induction false} WorkBounded(now: int, run: seq<Step>)
    requires Punctual(now, run)
    ensures Budget(Run(now, run)) <= MAX_FAILED_ATTEMPTS * |Run(now, run).rows|
    ensures Run(now, run).work <= MAX_FAILED_ATTEMPTS * |Run(now, run).rows|
  {
    SumZero(Run(now, run).rows, Weight());
    if run != [] {
      var front := run[..|run| - 1];
      Front(run, MeetsNobody(now));
      WorkBounded(now, front);
      PunctualLeased(now, front);
      BudgetKept(Run(now, front), run[|run| - 1]);
      NothingLost(Run(now, front), run[|run| - 1]);
    }
  }

  // ---------- the drain by many workers ----------

  predicate Drained(rows: seq<Row>) {
    forall i :: 0 <= i < |rows| ==> rows[i].Finished()
  }

  lemma BudgetStep(now: int, run: seq<Step>)
    requires Punctual(now, run) && run != [] && !run[|run| - 1].Append?
    ensures Punctual(now, run[..|run| - 1])
    ensures Budget(Run(now, run)) <= Budget(Run(now, run[..|run| - 1]))
  {
    Front(run, MeetsNobody(now));
    PunctualLeased(now, run[..|run| - 1]);
    BudgetKept(Run(now, run[..|run| - 1]), run[|run| - 1]);
  }

  lemma {:induction false} BudgetSpent(now: int, run: seq<Step>, n: nat)
    requires Punctual(now, run) && n <= |run| && forall k :: n <= k < |run| ==> !run[k].Append?
    ensures Budget(Run(now, run)) <= Budget(Run(now, run[..n]))
    decreases |run|
  {
    if n == |run| {
      assert run[..n] == run;
    } else {
      BudgetStep(now, run);
      BudgetSpent(now, run[..|run| - 1], n);
      assert run[..|run| - 1][..n] == run[..n];
    }
  }

  /** The step commits a batch whose sends are all answered. */
  predicate Concludes(w: World, step: Step) {
    && step.CommitStep? && step.worker in w.workers
    && w.workers[step.worker].claimed == w.workers[step.worker].sent + w.workers[step.worker].failed
  }

  /** How many batches the run commits after its first n steps. */
  ghost function Commits(now: int, run: seq<Step>, n: nat): nat
    requires n <= |run|
    decreases |run|
  {
    if n == |run| then 0
    else
      var front := run[..|run| - 1];
      Commits(now, front, n) + (if Concludes(Run(now, front), run[|run| - 1]) then 1 else 0)
  }

  lemma WorkCounted(w: World, step: Step)
    requires Safe(w)
    ensures Next(w, step).work >= w.work + (if Concludes(w, step) then 1 else 0)
  {
    if Concludes(w, step) {
      assert BatchOk(w, w.workers[step.worker]);
    }
  }

  lemma {:induction false} CommitsCounted(now: int, run: seq<Step>, n: nat)
    requires n <= |run|
    ensures Commits(now, run, n) <= Run(now, run).work - Run(now, run[..n]).work
    decreases |run|
  {
    if n == |run| {
      assert run[..n] == run;
    } else {
      var front := run[..|run| - 1];
      assert front[..n] == run[..n];
      CommitsCounted(now, front, n);
      PublishedWasSent(now, front);
      WorkCounted(Run(now, front), run[|run| - 1]);
    }
  }

  /** However many workers take turns, crash and are reclaimed: if nothing is appended after the first n
      steps, every batch committed since has used up at least one of the attempts that were left, and the table
      is drained exactly when none is left. */
  lemma ManyWorkersDrain(now: int, run: seq<Step>, n: nat)
    requires Punctual(now, run) && n <= |run| && forall k :: n <= k < |run| ==> !run[k].Append?
    ensures 0 <= Measure(Run(now, run).rows)
    ensures Commits(now, run, n) + Measure(Run(now, run).rows) <= Measure(Run(now, run[..n]).rows)
    ensures Measure(Run(now, run).rows) == 0 <==> Drained(Run(now, run).rows)
  {
    BudgetSpent(now, run, n);
    CommitsCounted(now, run, n);
    NoWeightLeft(Run(now, run).rows);
  }

  lemma NoWeightLeft(rows: seq<Row>)
    ensures Measure(rows) >= 0
    ensures Measure(rows) == 0 <==> Drained(rows)
  {
    SumZero(rows, Weight());
    assert forall i :: 0 <= i < |rows| ==> (Weight()(rows[i]) == 0 <==> rows[i].Finished());
  }

  /** No event is locked from the future. */
  predicate LocksPast(w: World) {
    forall i :: 0 <= i < |w.rows| && w.rows[i].lockedAt.Some? ==> w.rows[i].lockedAt.value <= w.now
  }

  lemma LocksStayPast(w: World, step: Step)
    requires LocksPast(w)
    ensures LocksPast(Next(w, step))
  {
  }

  lemma {:induction false} LockedBefore(now: int, run: seq<Step>)
    ensures LocksPast(Run(now, run))
  {
    if run != [] {
      LockedBefore(now, run[..|run| - 1]);
      LocksStayPast(Run(now, run[..|run| - 1]), run[|run| - 1]);
    }
  }

  /** Nothing strands: a lease after any point of any run, a reclaim makes every unfinished event claimable,
      whoever held it and whatever became of that worker. */
  lemma NothingStrands(now: int, run: seq<Step>, i: nat)
    requires i < |Run(now, run).rows| && !Run(now, run).rows[i].Finished()
    ensures var u := Next(Next(Run(now, run), Tick(301)), ReclaimStep);
            |u.rows| == |Run(now, run).rows| && u.rows[i].Eligible()
  {
    LockedBefore(now, run);
  }

  /** And the drain goes on: as long as the table is not drained, a lease and a reclaim later any idle worker's
      claim, whatever its batch size, takes some event. */
  lemma DrainGoesOn(now: int, run: seq<Step>, id: WorkerId, limit: nat) returns (claim: Step)
    requires !Drained(Run(now, run).rows) && id !in Run(now, run).workers && limit > 0
    ensures claim.ClaimStep? && claim.worker == id && claim.limit == limit && claim.held == {}
    ensures var ready := Next(Next(Run(now, run), Tick(301)), ReclaimStep);
            id in Next(ready, claim).workers && OldestPrefix(ready.rows, {}, limit, claim.batch) && claim.batch != {}
  {
    var i: nat :| i < |Run(now, run).rows| && !Run(now, run).rows[i].Finished();
    var ready := Next(Next(Run(now, run), Tick(LEASE + 1)), ReclaimStep);
    NothingStrands(now, run, i);
    assert i in Candidates(ready.rows, {});
    var batch := HasPrefix(CreatedAt(ready.rows), Candidates(ready.rows, {}), limit);
    claim := ClaimStep(id, limit, {}, batch);
    assert batch != {};
  }

  /** One complete run_once: reclaim, claim, send, commit. */
  datatype Round = Round(now: int, limit: nat, batch: set<nat>, acknowledged: set<nat>)

  function RunOnce(rows: seq<Row>, r: Round): seq<Row> {
    Conclude(Claim(Reclaim(rows, r.now), r.batch, r.now), r.batch * r.acknowledged, r.batch - r.acknowledged)
  }

  /** The broker's answers to a worker's sends, one step each. */
  ghost function SendMany(w: World, id: WorkerId, order: seq<nat>, acknowledged: set<nat>): World {
    if order == [] then w
    else
      var last := |order| - 1;
      Next(SendMany(w, id, order[..last], acknowledged), SendStep(id, order[last], order[last] in acknowledged))
  }

  lemma {:induction false} SentInAnyOrder(w: World, id: WorkerId, order: seq<nat>, acknowledged: set<nat>)
    requires id in w.workers && Distinct(order) && Ids(order) <= w.workers[id].claimed
    requires w.workers[id].sent == {} && w.workers[id].failed == {}
    ensures var b := w.workers[id].(sent := Ids(order) * acknowledged, failed := Ids(order) - acknowledged);
            SendMany(w, id, order, acknowledged)
            == w.(workers := w.workers[id := b], sends := w.sends + Ids(order) * acknowledged)
  {
    if order == [] {
      assert Ids(order) == {};
      assert Ids(order) * acknowledged == {} && Ids(order) - acknowledged == {};
      assert w.workers[id := w.workers[id]] == w.workers;
      assert w.sends + {} == w.sends;
    } else {
      var last := |order| - 1;
      var front := order[..last];
      assert order == front + [order[last]];
      IdsSnoc(front, order[last]);
      SentInAnyOrder(w, id, front, acknowledged);
      assert order[last] !in Ids(front);
      SendOne(w, id, Ids(front), order[last], acknowledged);
    }
  }

  lemma SendOne(w: World, id: WorkerId, done: set<nat>, row: nat, acknowledged: set<nat>)
    requires id in w.workers && row in w.workers[id].claimed && row !in done
    ensures var b := w.workers[id].(sent := done * acknowledged, failed := done - acknowledged);
            var c := w.workers[id].(sent := (done + {row}) * acknowledged, failed := (done + {row}) - acknowledged);
            Next(w.(workers := w.workers[id := b], sends := w.sends + done * acknowledged),
                 SendStep(id, row, row in acknowledged))
            == w.(workers := w.workers[id := c], sends := w.sends + (done + {row}) * acknowledged)
  {
    if row in acknowledged {
      assert (done + {row}) * acknowledged == done * acknowledged + {row};
      assert (done + {row}) - acknowledged == done - acknowledged;
      assert w.sends + (done + {row}) * acknowledged == w.sends + done * acknowledged + {row};
    } else {
      assert (done + {row}) * acknowledged == done * acknowledged;
      assert (done + {row}) - acknowledged == done - acknowledged + {row};
    }
  }

  /** A worker's steps in a pass that nobody disturbs, its sends completing in any order, make one round. */
  lemma RoundIsRun(w: World, id: WorkerId, r: Round, order: seq<nat>)
    requires id !in w.workers && r.now == w.now && r.batch != {}
    requires OldestPrefix(Reclaim(w.rows, w.now), {}, r.limit, r.batch)
    requires Distinct(order) && Ids(order) == r.batch
    ensures var claimed := Next(Next(w, ReclaimStep), ClaimStep(id, r.limit, {}, r.batch));
            var done := Next(SendMany(claimed, id, order, r.acknowledged), CommitStep(id));
            && done.rows == RunOnce(w.rows, r) && done.workers == w.workers
            && done.sends == w.sends + r.batch * r.acknowledged
  {
    var claimed := ClaimRound(w, id, r.limit, r.batch);
    SendRound(claimed, w.workers, id, order, r.acknowledged);
    CommitRound(SendMany(claimed, id, order, r.acknowledged), w.workers, id);
  }

  lemma SendRound(w: World, others: map<WorkerId, Batch>, id: WorkerId, order: seq<nat>, acknowledged: set<nat>)
    requires id !in others && Distinct(order)
    requires w.workers == others[id := Batch(Ids(order), w.now, {}, {})]
    ensures var sent, failed := Ids(order) * acknowledged, Ids(order) - acknowledged;
            SendMany(w, id, order, acknowledged)
            == w.(workers := others[id := Batch(Ids(order), w.now, sent, failed)], sends := w.sends + sent)
    ensures Ids(order) == Ids(order) * acknowledged + (Ids(order) - acknowledged)
  {
    SentInAnyOrder(w, id, order, acknowledged);
    Answered(Ids(order), acknowledged);
    var b := Batch(Ids(order), w.now, Ids(order) * acknowledged, Ids(order) - acknowledged);
    assert w.workers[id := b] == others[id := b];
  }

  lemma Answered(batch: set<nat>, acknowledged: set<nat>)
    ensures batch == batch * acknowledged + (batch - acknowledged)
  {
  }

  lemma ClaimRound(w: World, id: WorkerId, limit: nat, batch: set<nat>) returns (claimed: World)
    requires id !in w.workers && batch != {} && OldestPrefix(Reclaim(w.rows, w.now), {}, limit, batch)
    ensures claimed == Next(Next(w, ReclaimStep), ClaimStep(id, limit, {}, batch))
    ensures claimed == w.(rows := Claim(Reclaim(w.rows, w.now), batch, w.now),
                          workers := w.workers[id := Batch(batch, w.now, {}, {})])
  {
    claimed := Next(Next(w, ReclaimStep), ClaimStep(id, limit, {}, batch));
  }

  lemma CommitRound(w: World, others: map<WorkerId, Batch>, id: WorkerId)
    requires id !in others && id in w.workers && w.workers == others[id := w.workers[id]]
    requires w.workers[id].claimed == w.workers[id].sent + w.workers[id].failed
    ensures var u := Next(w, CommitStep(id));
            && u.rows == Conclude(w.rows, w.workers[id].sent, w.workers[id].failed)
            && u.workers == others && u.sends == w.sends
  {
  }

  /** The round claims what the query would, with room for one event and no lease still running. */
  ghost predicate FairRound(rows: seq<Row>, r: Round) {
    && r.limit > 0
    && (forall i :: 0 <= i < |rows| && rows[i].lockedAt.Some? ==> rows[i].published || rows[i].Expired(r.now))
    && OldestPrefix(Reclaim(rows, r.now), {}, r.limit, r.batch)
  }

  ghost predicate FairRounds(rows: seq<Row>, rounds: seq<Round>)
    decreases |rounds|
  {
    rounds == [] || (FairRound(rows, rounds[0]) && FairRounds(RunOnce(rows, rounds[0]), rounds[1..]))
  }

  function RunRounds(rows: seq<Row>, rounds: seq<Round>): seq<Row>
    decreases |rounds|
  {
    if rounds == [] then rows else RunRounds(RunOnce(rows, rounds[0]), rounds[1..])
  }

  /** A round lowers the measure by the size of its batch, and takes an event unless all are finished. */
  lemma RoundLowers(rows: seq<Row>, r: Round)
    requires FairRound(rows, r)
    ensures |RunOnce(rows, r)| == |rows|
    ensures Measure(RunOnce(rows, r)) + |r.batch| <= Measure(rows)
    ensures r.batch == {} ==> Drained(rows)
  {
    var claimed := Claim(Reclaim(rows, r.now), r.batch, r.now);
    SumPointwise(rows, claimed, Weight());
    ConcludeLowers(claimed, r.batch * r.acknowledged, r.batch - r.acknowledged);
    assert r.batch * r.acknowledged + (r.batch - r.acknowledged) == r.batch;
    if r.batch == {} {
      NothingClaimed(rows, r);
    }
  }

  lemma NothingClaimed(rows: seq<Row>, r: Round)
    requires FairRound(rows, r) && r.batch == {}
    ensures Drained(rows)
  {
    var reclaimed := Reclaim(rows, r.now);
    var candidates := Candidates(reclaimed, {});
    assert |candidates| == 0;
    forall i | 0 <= i < |rows| ensures rows[i].Finished() {
      assert i !in candidates;
    }
  }

  lemma DrainedStays(rows: seq<Row>, r: Round)
    requires FairRound(rows, r) && Drained(rows)
    ensures Drained(RunOnce(rows, r))
  {
  }

  lemma {:induction false} DrainedForever(rows: seq<Row>, rounds: seq<Round>)
    requires FairRounds(rows, rounds) && Drained(rows)
    ensures Drained(RunRounds(rows, rounds))
    decreases |rounds|
  {
    if rounds != [] {
      DrainedStays(rows, rounds[0]);
      DrainedForever(RunOnce(rows, rounds[0]), rounds[1..]);
    }
  }

  /** As many rounds as there are attempts left leave every event published or dead-lettered, whatever
      the broker answers. */
  lemma {:induction false} DrainTerminates(rows: seq<Row>, rounds: seq<Round>)
    requires FairRounds(rows, rounds) && |rounds| >= Measure(rows)
    ensures Drained(RunRounds(rows, rounds))
    decreases |rounds|
  {
    NoWeightLeft(rows);
    if rounds != [] {
      RoundLowers(rows, rounds[0]);
      if rounds[0].batch == {} {
        DrainedForever(rows, rounds);
      } else {
        DrainTerminates(RunOnce(rows, rounds[0]), rounds[1..]);
      }
    }
  }
}
