/** Webhook deliveries under many leasing workers (crates/webhook-service/src/retry_scheduler.rs). */
module Webhooks {
  import opened Claims
  import opened Models
  import opened Prefixes
  import opened Sums

  const BATCH_SIZE := 20
  const LEASE := 300
  const MAX_DELAY := 3600.0
  const JITTER_FRACTION := 0.2

  datatype DeliveryStatus = Queued | Processing | Success | DeadLettered

  /** A delivery row; its id is its position. */
  datatype Delivery = Delivery(
    status: DeliveryStatus, attempts: int, maxAttempts: int, nextRetryAt: int, startedAt: Option<int>)
  {
    predicate Due(now: int) {
      status == Queued && nextRetryAt <= now && attempts < maxAttempts
    }

    predicate Stale(now: int) {
      status == Processing && startedAt.Some? && startedAt.value < now - LEASE
    }

    predicate Final() {
      status == Success || status == DeadLettered
    }
  }

  // ---------- the backoff ----------

  function Pow2(n: nat): nat {
    if n == 0 then 1 else 2 * Pow2(n - 1)
  }

  function Capped(attempt: int): real
    requires attempt >= 1
  {
    var base := Pow2(attempt - 1) as real;
    if base < MAX_DELAY then base else MAX_DELAY
  }

  /** What the random generator may return for this attempt. */
  predicate Jitter(attempt: int, jitter: real)
    requires attempt >= 1
  {
    -JITTER_FRACTION * Capped(attempt) <= jitter < JITTER_FRACTION * Capped(attempt)
  }

  /** Whole seconds until the next attempt. */
  function Delay(attempt: int, jitter: real): int
    requires attempt >= 1
  {
    var delay := Capped(attempt) + jitter;
    (if delay < 1.0 then 1.0 else delay).Floor
  }

  lemma {:induction false} PowMonotone(a: nat, b: nat)
    requires a <= b
    ensures Pow2(a) <= Pow2(b)
    decreases b
  {
    if a < b {
      PowMonotone(a, b - 1);
    }
  }

  /** The caps of the first thirteen attempts and beyond. */
  lemma CappedAt(attempt: int)
    requires attempt >= 1
    ensures attempt <= 12 ==> Capped(attempt) == Pow2(attempt - 1) as real && 1.0 <= Capped(attempt) <= 2048.0
    ensures attempt >= 13 ==> Capped(attempt) == 3600.0
  {
    assert Pow2(4) == 16 && Pow2(0) == 1;
    assert Pow2(8) == 256;
    assert Pow2(12) == 4096 && Pow2(11) == 2048;
    if attempt <= 12 {
      PowMonotone(attempt - 1, 11);
      PowMonotone(0, attempt - 1);
    } else {
      PowMonotone(12, attempt - 1);
    }
  }

  /** Between one second and 72 minutes, and the whole seconds of the cap and the jitter if that is one at least. */
  lemma DelayBounded(attempt: int, jitter: real)
    requires attempt >= 1 && Jitter(attempt, jitter)
    ensures 1 <= Delay(attempt, jitter) <= 4319
    ensures var exact := Capped(attempt) + jitter;
            exact >= 1.0 ==> Delay(attempt, jitter) as real <= exact < Delay(attempt, jitter) as real + 1.0
  {
  }

  /** From the thirteenth attempt on every delay from 48 minutes to just under 72 can come. */
  lemma DelaySpread(attempt: int, delay: int) returns (jitter: real)
    requires attempt >= 13
    ensures Jitter(attempt, jitter) && Delay(attempt, jitter) == delay <==> 2880 <= delay <= 4319
  {
    CappedAt(attempt);
    jitter := delay as real - 3600.0;
  }

  predicate InOrder(attempt: int, i: real, j: real)
    requires attempt >= 1
  {
    Delay(attempt, i) <= Delay(attempt + 1, j)
  }

  /** The next attempt waits at least as long, whatever the two jitters. */
  ghost predicate NeverShorter(attempt: int)
    requires attempt >= 1
  {
    forall i, j :: Jitter(attempt, i) && Jitter(attempt + 1, j) ==> InOrder(attempt, i, j)
  }

  /** Up to the cap, the next cap is at least half as large again. */
  lemma CapGrows(attempt: int)
    requires 1 <= attempt <= 12
    ensures Capped(attempt + 1) >= 1.5 * Capped(attempt) >= 1.5
  {
    CappedAt(attempt);
    CappedAt(attempt + 1);
    assert Pow2(attempt) == 2 * Pow2(attempt - 1);
  }

  lemma RoundedInOrder(a: real, b: real)
    requires a <= b
    ensures a.Floor <= b.Floor
  {
  }

  lemma StillGrowing(attempt: int, i: real, j: real)
    requires 1 <= attempt <= 12 && Jitter(attempt, i) && Jitter(attempt + 1, j)
    ensures InOrder(attempt, i, j)
  {
    CapGrows(attempt);
    var a, b := Capped(attempt) + i, Capped(attempt + 1) + j;
    assert a <= 1.2 * Capped(attempt) <= 0.8 * Capped(attempt + 1) <= b;
    RoundedInOrder(if a < 1.0 then 1.0 else a, if b < 1.0 then 1.0 else b);
  }

  /** The delay is non-decreasing from one attempt to the next exactly up to attempt 13. */
  lemma DelayGrowsUntilCap(attempt: int)
    requires attempt >= 1
    ensures NeverShorter(attempt) <==> attempt <= 12
  {
    if attempt <= 12 {
      forall i, j | Jitter(attempt, i) && Jitter(attempt + 1, j) ensures InOrder(attempt, i, j) {
        StillGrowing(attempt, i, j);
      }
    } else {
      CappedAt(attempt);
      CappedAt(attempt + 1);
      assert Jitter(attempt, 0.0) && Jitter(attempt + 1, -1.0);
      assert Delay(attempt, 0.0) == 3600 && Delay(attempt + 1, -1.0) == 3599;
      assert !InOrder(attempt, 0.0, -1.0);
    }
  }

  // ---------- the statements ----------

  function Reclaimed(d: Delivery, now: int): Delivery {
    if d.Stale(now) then d.(status := Queued, startedAt := None) else d
  }

  function Reclaim(rows: seq<Delivery>, now: int): seq<Delivery> {
    seq(|rows|, i requires 0 <= i < |rows| => Reclaimed(rows[i], now))
  }

  function Claimed(d: Delivery, now: int): Delivery {
    d.(status := Processing, startedAt := Some(now))
  }

  /** The deliveries the claiming query may take. */
  function Candidates(rows: seq<Delivery>, now: int, held: set<nat>): set<nat> {
    set i: nat | i < |rows| && rows[i].Due(now) && i !in held
  }

  function RetryTimes(rows: seq<Delivery>): seq<int> {
    seq(|rows|, i requires 0 <= i < |rows| => rows[i].nextRetryAt)
  }

  /** ORDER BY next_retry_at LIMIT 20: the deliveries due longest. */
  ghost predicate DueLongest(rows: seq<Delivery>, now: int, held: set<nat>, batch: set<nat>) {
    SmallestPrefix(RetryTimes(rows), Candidates(rows, now, held), BATCH_SIZE, batch)
  }

  /** Such a claim takes at most twenty deliveries, each queued, due, with an attempt left and locked by nobody,
      and leaves one of those only if it took twenty that were due no later. */
  lemma ClaimExact(rows: seq<Delivery>, now: int, held: set<nat>, batch: set<nat>)
    ensures DueLongest(rows, now, held, batch) <==>
              && |batch| <= 20
              && (forall i :: i in batch ==> Claimable(rows, now, held, i))
              && (forall j: nat :: Claimable(rows, now, held, j) && j !in batch ==>
                    |batch| == 20 && forall i :: i in batch ==> rows[i].nextRetryAt <= rows[j].nextRetryAt)
  {
    assert forall i: nat :: i in Candidates(rows, now, held) <==> Claimable(rows, now, held, i);
    PrefixExact(RetryTimes(rows), Candidates(rows, now, held), BATCH_SIZE, batch);
  }

  predicate Claimable(rows: seq<Delivery>, now: int, held: set<nat>, i: nat) {
    && i < |rows| && i !in held && rows[i].status == Queued && rows[i].nextRetryAt <= now
    && rows[i].attempts < rows[i].maxAttempts
  }

  function Counted(d: Delivery): Delivery {
    d.(attempts := d.attempts + 1)
  }

  /** handle_failure: give up after the last allowed attempt, else only move next_retry_at. */
  function AfterFailure(d: Delivery, maxAttempts: int, attempt: int, now: int, jitter: real): Delivery
    requires attempt >= 1
  {
    if attempt >= maxAttempts then d.(status := DeadLettered) else d.(nextRetryAt := now + Delay(attempt, jitter))
  }

  // ---------- workers, crashes and the clock ----------

  type TaskId = nat

  datatype Phase = Waiting | Counting | Answered(ok: bool)

  /** One delivery in the hands of a worker, with the counters it read when it claimed the row. */
  datatype Task = Task(row: nat, claimedAt: int, attemptCount: int, maxAttempts: int, phase: Phase)
  {
    function Attempt(): int {
      attemptCount + 1
    }
  }

  datatype LogItem =
    | Posted(row: nat, at: int, attempt: int, ok: bool, claimedAt: int)
    | Scheduled(row: nat, at: int, attempt: int, jitter: real, retryAt: int)

  /** `log` records the POSTs sent and the retries scheduled. */
  datatype World = World(rows: seq<Delivery>, now: int, tasks: map<TaskId, Task>, log: seq<LogItem>)

  datatype Step =
    | Enqueue(maxAttempts: nat)
    | Tick(seconds: nat)
    | ReclaimStep
    | ClaimStep(task: TaskId, row: nat)
    | CountStep(task: TaskId)
    | PostStep(task: TaskId, ok: bool)
    | FinishStep(task: TaskId, jitter: real)
    | CrashStep(task: TaskId)

  function Drop(w: World, id: TaskId): World {
    w.(tasks := w.tasks - {id})
  }

  function Next(w: World, step: Step): World {
    match step
    case Enqueue(maxAttempts) => w.(rows := w.rows + [Delivery(Queued, 0, maxAttempts, w.now, None)])
    case Tick(seconds) => w.(now := w.now + seconds)
    case ReclaimStep => w.(rows := Reclaim(w.rows, w.now))
    case ClaimStep(id, row) =>
      if id !in w.tasks && row < |w.rows| && w.rows[row].Due(w.now) then
        var d := w.rows[row];
        w.(rows := w.rows[row := Claimed(d, w.now)],
           tasks := w.tasks[id := Task(row, w.now, d.attempts, d.maxAttempts, Waiting)])
      else w
    case CountStep(id) =>
      if id in w.tasks && w.tasks[id].phase.Waiting? && w.tasks[id].row < |w.rows| then
        var t := w.tasks[id];
        w.(rows := w.rows[t.row := Counted(w.rows[t.row])], tasks := w.tasks[id := t.(phase := Counting)])
      else w
    case PostStep(id, ok) =>
      if id in w.tasks && w.tasks[id].phase.Counting? then
        var t := w.tasks[id];
        w.(tasks := w.tasks[id := t.(phase := Answered(ok))], log := w.log + [Posted(t.row, w.now, t.Attempt(), ok, t.claimedAt)])
      else w
    case FinishStep(id, jitter) =>
      if id in w.tasks && w.tasks[id].phase.Answered? && w.tasks[id].row < |w.rows| && w.tasks[id].Attempt() >= 1
         && Jitter(w.tasks[id].Attempt(), jitter) then
        var t := w.tasks[id];
        var d := w.rows[t.row];
        if t.phase.ok then Drop(w.(rows := w.rows[t.row := d.(status := Success)]), id)
        else
          var failed := AfterFailure(d, t.maxAttempts, t.Attempt(), w.now, jitter);
          var log := if t.Attempt() >= t.maxAttempts then w.log
                     else w.log + [Scheduled(t.row, w.now, t.Attempt(), jitter, failed.nextRetryAt)];
          Drop(w.(rows := w.rows[t.row := failed], log := log), id)
      else w
    case CrashStep(id) => Drop(w, id)
  }

  function Start(now: int): World {
    World([], now, map[], [])
  }

  function Run(now: int, run: seq<Step>): World {
    if run == [] then Start(now) else Next(Run(now, run[..|run| - 1]), run[|run| - 1])
  }

  /** Some worker still holds a delivery although its lease is over. */
  predicate Overdue(w: World) {
    exists id :: id in w.tasks && w.tasks[id].claimedAt < w.now - LEASE
  }

  function MeetsNobody(now: int): (seq<Step>, Step) -> bool {
    (before: seq<Step>, step: Step) => !(step.ReclaimStep? && Overdue(Run(now, before)))
  }

  /** No reclaim of the run meets an overdue worker. */
  ghost predicate Punctual(now: int, run: seq<Step>) {
    AtEachStep(run, MeetsNobody(now))
  }

  // ---------- the invariant ----------

  function PostsTo(row: nat): LogItem -> int {
    (item: LogItem) => if item.Posted? && item.row == row then 1 else 0
  }

  function Posts(w: World, row: nat): int {
    SumBy(w.log, PostsTo(row))
  }

  /** The row belongs to this dispatch alone, and its counter shows how far the dispatch got. */
  predicate TaskOk(w: World, t: Task) {
    && t.row < |w.rows|
    && w.rows[t.row].status == Processing && w.rows[t.row].startedAt == Some(t.claimedAt)
    && w.rows[t.row].nextRetryAt <= t.claimedAt <= w.now
    && w.rows[t.row].maxAttempts == t.maxAttempts && 0 <= t.attemptCount < t.maxAttempts
    && w.rows[t.row].attempts == (if t.phase.Waiting? then t.attemptCount else t.attemptCount + 1)
    && (t.phase.Counting? ==> Posts(w, t.row) < w.rows[t.row].attempts)
    && (t.phase.Answered? ==> PostedAs(w, t.row, t.Attempt(), t.phase.ok))
  }

  /** The log holds a POST for this attempt with this outcome. */
  predicate PostedAs(w: World, row: nat, attempt: int, ok: bool) {
    exists k :: 0 <= k < |w.log| && w.log[k].Posted? && w.log[k].row == row && w.log[k].attempt == attempt && w.log[k].ok == ok
  }

  ghost predicate RowOk(w: World, row: nat)
    requires row < |w.rows|
  {
    var d := w.rows[row];
    && 0 <= Posts(w, row) <= d.attempts <= d.maxAttempts
    && (d.status == Success ==> exists attempt :: PostedAs(w, row, attempt, true))
    && (d.status == DeadLettered ==> d.attempts == d.maxAttempts && PostedAs(w, row, d.maxAttempts, false))
  }

  predicate ItemOk(w: World, item: LogItem) {
    && item.row < |w.rows|
    && (item.Scheduled? ==>
          && item.attempt >= 1 && Jitter(item.attempt, item.jitter)
          && item.retryAt == item.at + Delay(item.attempt, item.jitter)
          && item.retryAt <= w.rows[item.row].nextRetryAt)
  }

  /** No POST before the retry time scheduled earlier for its row. */
  predicate Backoff(log: seq<LogItem>) {
    forall i, j :: 0 <= i < j < |log| && log[i].Scheduled? && log[j].Posted? && log[i].row == log[j].row ==>
      log[i].retryAt <= log[j].at
  }

  ghost predicate Ok(w: World) {
    && (forall id :: id in w.tasks ==> TaskOk(w, w.tasks[id]))
    && (forall a, b :: a in w.tasks && b in w.tasks && w.tasks[a].row == w.tasks[b].row ==> a == b)
    && (forall row :: 0 <= row < |w.rows| ==> RowOk(w, row))
    && (forall k :: 0 <= k < |w.log| ==> ItemOk(w, w.log[k]))
    && Backoff(w.log)
  }

  lemma EnqueueOk(w: World, step: Step)
    requires Ok(w) && step.Enqueue?
    ensures Ok(Next(w, step))
  {
    var u := Next(w, step);
    SumZero(w.log, PostsTo(|w.rows|));
    forall k | 0 <= k < |w.log| ensures ItemOk(u, u.log[k]) && PostsTo(|w.rows|)(w.log[k]) == 0 {
      assert ItemOk(w, w.log[k]);
    }
    forall id | id in u.tasks ensures TaskOk(u, u.tasks[id]) {
      assert TaskOk(w, w.tasks[id]);
      assert forall attempt, ok :: PostedAs(w, w.tasks[id].row, attempt, ok) ==> PostedAs(u, w.tasks[id].row, attempt, ok);
    }
    forall row | 0 <= row < |u.rows| ensures RowOk(u, row) {
      if row < |w.rows| {
        assert RowOk(w, row);
        assert forall attempt, ok :: PostedAs(w, row, attempt, ok) ==> PostedAs(u, row, attempt, ok);
      }
    }
  }

  /** Steps that touch no log: rows change only as their tasks allow. */
  lemma RowsOnlyOk(w: World, u: World)
    requires Ok(w) && u.log == w.log && |u.rows| == |w.rows| && w.now <= u.now
    requires forall id :: id in u.tasks ==> id in w.tasks && u.tasks[id] == w.tasks[id]
    requires forall id :: id in u.tasks ==> u.rows[w.tasks[id].row] == w.rows[w.tasks[id].row]
    requires forall row :: 0 <= row < |w.rows| ==>
               && u.rows[row].attempts == w.rows[row].attempts && u.rows[row].maxAttempts == w.rows[row].maxAttempts
               && u.rows[row].nextRetryAt == w.rows[row].nextRetryAt
               && (u.rows[row].Final() ==> u.rows[row] == w.rows[row])
    ensures Ok(u)
  {
    forall row, attempt, ok | PostedAs(w, row, attempt, ok) ensures PostedAs(u, row, attempt, ok) {
    }
    forall id | id in u.tasks ensures TaskOk(u, u.tasks[id]) {
      assert TaskOk(w, w.tasks[id]);
    }
    forall row | 0 <= row < |u.rows| ensures RowOk(u, row) {
      assert RowOk(w, row);
    }
    forall k | 0 <= k < |u.log| ensures ItemOk(u, u.log[k]) {
      assert ItemOk(w, w.log[k]);
    }
  }

  lemma ReclaimOk(w: World)
    requires Ok(w)
    ensures Ok(Next(w, ReclaimStep)) <==> !Overdue(w)
  {
    var u := Next(w, ReclaimStep);
    if id :| id in w.tasks && w.tasks[id].claimedAt < w.now - LEASE {
      assert TaskOk(w, w.tasks[id]) && !TaskOk(u, u.tasks[id]);
    } else {
      forall id | id in w.tasks ensures !w.rows[w.tasks[id].row].Stale(w.now) {
        assert TaskOk(w, w.tasks[id]);
      }
      RowsOnlyOk(w, u);
    }
  }

  lemma QuietOk(w: World, step: Step)
    requires Ok(w) && (step.Tick? || step.CrashStep?)
    ensures Ok(Next(w, step))
  {
    assert forall id :: id in w.tasks ==> TaskOk(w, w.tasks[id]);
    RowsOnlyOk(w, Next(w, step));
  }

  /** One row changes hands or counters: the other rows and their tasks stay as they are. */
  lemma OtherRowsOk(w: World, u: World, row: nat)
    requires Ok(w) && row < |w.rows| && u.now == w.now && |u.rows| == |w.rows|
    requires u.log == w.log || (|u.log| > 0 && u.log[..|u.log| - 1] == w.log && u.log[|u.log| - 1].row == row)
    requires forall other :: 0 <= other < |w.rows| && other != row ==> u.rows[other] == w.rows[other]
    ensures forall other :: 0 <= other < |w.rows| && other != row ==> RowOk(u, other)
    ensures forall id :: id in w.tasks && w.tasks[id].row != row ==> TaskOk(u, w.tasks[id])
  {
    forall other, attempt, ok | PostedAs(w, other, attempt, ok) ensures PostedAs(u, other, attempt, ok) {
      StillPosted(w, u, other, attempt, ok);
    }
    forall other | 0 <= other < |w.rows| && other != row ensures RowOk(u, other) && Posts(u, other) == Posts(w, other) {
      assert RowOk(w, other);
    }
    forall id | id in w.tasks && w.tasks[id].row != row ensures TaskOk(u, w.tasks[id]) {
      assert TaskOk(w, w.tasks[id]);
    }
  }

  lemma StillPosted(w: World, u: World, row: nat, attempt: int, ok: bool)
    requires PostedAs(w, row, attempt, ok) && w.log <= u.log
    ensures PostedAs(u, row, attempt, ok)
  {
  }

  lemma ClaimOk(w: World, id: TaskId, row: nat)
    requires Ok(w)
    ensures Ok(Next(w, ClaimStep(id, row)))
  {
    var u := Next(w, ClaimStep(id, row));
    if u != w {
      OtherRowsOk(w, u, row);
      assert RowOk(w, row);
      forall other | other in w.tasks ensures w.tasks[other].row != row {
        assert TaskOk(w, w.tasks[other]);
      }
      assert RowOk(u, row);
      forall k | 0 <= k < |u.log| ensures ItemOk(u, u.log[k]) {
        assert ItemOk(w, w.log[k]);
      }
    }
  }

  lemma CountOk(w: World, id: TaskId)
    requires Ok(w)
    ensures Ok(Next(w, CountStep(id)))
  {
    var u := Next(w, CountStep(id));
    if u != w {
      var t := w.tasks[id];
      assert TaskOk(w, t) && RowOk(w, t.row);
      OtherRowsOk(w, u, t.row);
      assert RowOk(u, t.row) && TaskOk(u, u.tasks[id]);
      forall k | 0 <= k < |u.log| ensures ItemOk(u, u.log[k]) {
        assert ItemOk(w, w.log[k]);
      }
    }
  }

  lemma PostOk(w: World, id: TaskId, ok: bool)
    requires Ok(w)
    ensures Ok(Next(w, PostStep(id, ok)))
  {
    var u := Next(w, PostStep(id, ok));
    if u != w {
      var t := w.tasks[id];
      assert TaskOk(w, t) && RowOk(w, t.row);
      SumSnoc(w.log, Posted(t.row, w.now, t.Attempt(), ok, t.claimedAt), PostsTo(t.row));
      OtherRowsOk(w, u, t.row);
      assert u.log[|w.log|] == Posted(t.row, w.now, t.Attempt(), ok, t.claimedAt);
      assert TaskOk(u, u.tasks[id]) && RowOk(u, t.row);
      PostItems(w, id, ok);
    }
  }

  lemma PostItems(w: World, id: TaskId, ok: bool)
    requires Ok(w) && id in w.tasks
    ensures var u := Next(w, PostStep(id, ok));
            (forall k :: 0 <= k < |u.log| ==> ItemOk(u, u.log[k])) && Backoff(u.log)
  {
  }

  lemma FinishRow(w: World, id: TaskId, jitter: real)
    requires Ok(w) && id in w.tasks
    ensures var u := Next(w, FinishStep(id, jitter)); u != w ==> RowOk(u, w.tasks[id].row)
  {
    var u, t := Next(w, FinishStep(id, jitter)), w.tasks[id];
    assert TaskOk(w, t) && RowOk(w, t.row);
    if u != w {
      StillPosted(w, u, t.row, t.Attempt(), t.phase.ok);
      if |u.log| > |w.log| {
        SumSnoc(w.log, u.log[|w.log|], PostsTo(t.row));
      }
    }
  }

  lemma FinishItems(w: World, id: TaskId, jitter: real)
    requires Ok(w) && id in w.tasks
    ensures var u := Next(w, FinishStep(id, jitter));
            (forall k :: 0 <= k < |u.log| ==> ItemOk(u, u.log[k])) && Backoff(u.log)
  {
    var u, t := Next(w, FinishStep(id, jitter)), w.tasks[id];
    assert TaskOk(w, t);
    if u != w {
      DelayBounded(t.Attempt(), jitter);
      forall k | 0 <= k < |u.log| ensures ItemOk(u, u.log[k]) {
        if k < |w.log| { assert ItemOk(w, w.log[k]); }
      }
    }
  }

  lemma FinishOk(w: World, id: TaskId, jitter: real)
    requires Ok(w)
    ensures Ok(Next(w, FinishStep(id, jitter)))
  {
    var u := Next(w, FinishStep(id, jitter));
    if u != w {
      FinishRow(w, id, jitter);
      FinishItems(w, id, jitter);
      OtherRowsOk(w, u, w.tasks[id].row);
    }
  }

  /** The one step that can break the invariant is a reclaim that meets an overdue worker, and it always does. */
  lemma LeaseExact(w: World, step: Step)
    requires Ok(w)
    ensures Ok(Next(w, step)) <==> !(step.ReclaimStep? && Overdue(w))
  {
    match step
    case Enqueue(_) => EnqueueOk(w, step);
    case Tick(_) => QuietOk(w, step);
    case ReclaimStep => ReclaimOk(w);
    case ClaimStep(id, row) => ClaimOk(w, id, row);
    case CountStep(id) => CountOk(w, id);
    case PostStep(id, ok) => PostOk(w, id, ok);
    case FinishStep(id, jitter) => FinishOk(w, id, jitter);
    case CrashStep(_) => QuietOk(w, step);
  }

  lemma {:induction false} Reachable(now: int, run: seq<Step>)
    requires Punctual(now, run)
    ensures Ok(Run(now, run))
  {
    if run != [] {
      var front := run[..|run| - 1];
      Front(run, MeetsNobody(now));
      Reachable(now, front);
      LeaseExact(Run(now, front), run[|run| - 1]);
    }
  }

  /** The invariant holds throughout the run. */
  ghost predicate AlwaysOk(now: int, run: seq<Step>) {
    forall k :: 0 <= k <= |run| ==> Ok(Run(now, run[..k]))
  }

  /** Deliveries stay with their worker, capped and accounted for, throughout a run if and only if no reclaim
      of it meets an overdue worker. */
  lemma OwnershipExact(now: int, run: seq<Step>)
    ensures AlwaysOk(now, run) <==> Punctual(now, run)
  {
    if Punctual(now, run) {
      forall k | 0 <= k <= |run| ensures Ok(Run(now, run[..k])) {
        Prefix(run, k, MeetsNobody(now));
        Reachable(now, run[..k]);
      }
    } else {
      var k :| 0 <= k < |run| && !MeetsNobody(now)(run[..k], run[k]);
      RunPrefix(now, run, k);
      if Ok(Run(now, run[..k])) {
        LeaseExact(Run(now, run[..k]), run[k]);
      }
    }
  }

  /** POSTs never outnumber the counted attempts, which never exceed the limit; a delivery is given up
      only after the POST of its last allowed attempt failed, and successful only after one succeeded. */
  lemma AttemptsBounded(now: int, run: seq<Step>, row: nat)
    requires Punctual(now, run) && row < |Run(now, run).rows|
    ensures var w := Run(now, run);
            var d := w.rows[row];
            && 0 <= Posts(w, row) <= d.attempts <= d.maxAttempts
            && (d.status == Success ==> exists attempt :: PostedAs(w, row, attempt, true))
            && (d.status == DeadLettered ==> d.attempts == d.maxAttempts && PostedAs(w, row, d.maxAttempts, false))
  {
    Reachable(now, run);
    assert RowOk(Run(now, run), row);
  }

  /** After a failed attempt, no POST before the backoff drawn for that attempt has passed. */
  lemma BackoffRespected(now: int, run: seq<Step>, i: nat, j: nat)
    requires Punctual(now, run)
    requires i < j < |Run(now, run).log|
    requires var log := Run(now, run).log; log[i].Scheduled? && log[j].Posted? && log[i].row == log[j].row
    ensures var retry := Run(now, run).log[i];
            && retry.attempt >= 1 && Jitter(retry.attempt, retry.jitter)
            && Run(now, run).log[j].at - retry.at >= Delay(retry.attempt, retry.jitter) >= 1
  {
    Reachable(now, run);
    var w := Run(now, run);
    assert ItemOk(w, w.log[i]);
    DelayBounded(w.log[i].attempt, w.log[i].jitter);
  }

  /** Success and dead_lettered are absorbing. */
  lemma FinalForever(now: int, run: seq<Step>, step: Step, row: nat)
    requires Punctual(now, run) && row < |Run(now, run).rows| && Run(now, run).rows[row].Final()
    ensures Next(Run(now, run), step).rows[row] == Run(now, run).rows[row]
  {
    Reachable(now, run);
    var w := Run(now, run);
    assert forall id :: id in w.tasks ==> TaskOk(w, w.tasks[id]);
  }

  // ---------- a retry waits for the lease ----------

  /** A claim that led to a POST is over, or it is the claim the row is still held under. */
  predicate ClaimSpent(w: World, item: LogItem) {
    item.Posted? ==>
      && item.row < |w.rows|
      && item.claimedAt <= item.at
      && (w.rows[item.row].status == Queued ==> item.claimedAt + LEASE < w.now)
      && (w.rows[item.row].status == Processing ==>
            && w.rows[item.row].startedAt.Some?
            && (item.claimedAt == w.rows[item.row].startedAt.value || item.claimedAt + LEASE < w.rows[item.row].startedAt.value))
  }

  /** A task that has not posted yet was claimed after the lease of every earlier POST to its row. */
  predicate Fresh(w: World, t: Task) {
    forall k :: 0 <= k < |w.log| && w.log[k].Posted? && w.log[k].row == t.row && !t.phase.Answered? ==>
      w.log[k].claimedAt + LEASE < t.claimedAt
  }

  predicate Spaced(log: seq<LogItem>) {
    forall i, j :: 0 <= i < j < |log| && log[i].Posted? && log[j].Posted? && log[i].row == log[j].row ==>
      log[i].claimedAt + LEASE < log[j].claimedAt
  }

  ghost predicate SpacedOk(w: World) {
    && (forall k :: 0 <= k < |w.log| ==> ClaimSpent(w, w.log[k]))
    && (forall id :: id in w.tasks ==> Fresh(w, w.tasks[id]))
    && Spaced(w.log)
  }

  lemma SpentStep(w: World, step: Step, k: nat)
    requires Ok(w) && SpacedOk(w) && !(step.ReclaimStep? && Overdue(w)) && k < |Next(w, step).log|
    ensures ClaimSpent(Next(w, step), Next(w, step).log[k])
  {
    assert forall id :: id in w.tasks ==> TaskOk(w, w.tasks[id]);
    if k < |w.log| {
      assert ClaimSpent(w, w.log[k]);
    }
  }

  lemma FreshStep(w: World, step: Step, id: TaskId)
    requires Ok(w) && SpacedOk(w) && !(step.ReclaimStep? && Overdue(w)) && id in Next(w, step).tasks
    ensures Fresh(Next(w, step), Next(w, step).tasks[id])
  {
    if id in w.tasks {
      assert Fresh(w, w.tasks[id]) && TaskOk(w, w.tasks[id]);
    } else {
      assert forall k :: 0 <= k < |w.log| ==> ClaimSpent(w, w.log[k]);
    }
  }

  lemma SpacedStep(w: World, step: Step)
    requires Ok(w) && SpacedOk(w) && !(step.ReclaimStep? && Overdue(w))
    ensures SpacedOk(Next(w, step))
  {
    var u := Next(w, step);
    forall k | 0 <= k < |u.log| ensures ClaimSpent(u, u.log[k]) {
      SpentStep(w, step, k);
    }
    forall id | id in u.tasks ensures Fresh(u, u.tasks[id]) {
      FreshStep(w, step, id);
    }
    if step.PostStep? && step.task in w.tasks {
      assert Fresh(w, w.tasks[step.task]);
    }
  }

  lemma {:induction false} SpacedRun(now: int, run: seq<Step>)
    requires Punctual(now, run)
    ensures SpacedOk(Run(now, run))
  {
    if run != [] {
      var front := run[..|run| - 1];
      Front(run, MeetsNobody(now));
      Reachable(now, front);
      SpacedRun(now, front);
      SpacedStep(Run(now, front), run[|run| - 1]);
    }
  }

  /** Two POSTs of one delivery belong to claims more than a whole lease apart, however short the
      backoff: a failed attempt leaves the row claimed until the lease is reclaimed. */
  lemma RetryWaitsForLease(now: int, run: seq<Step>, i: nat, j: nat)
    requires Punctual(now, run)
    requires i < j < |Run(now, run).log|
    requires var log := Run(now, run).log; log[i].Posted? && log[j].Posted? && log[i].row == log[j].row
    ensures var log := Run(now, run).log;
            && log[i].claimedAt + 300 < log[j].claimedAt <= log[j].at
            && (log[i].at <= log[i].claimedAt + 300 ==> log[i].at < log[j].at)
  {
    SpacedRun(now, run);
    var w := Run(now, run);
    assert ClaimSpent(w, w.log[i]) && ClaimSpent(w, w.log[j]);
  }

  // ---------- workers that keep within their lease ----------

  predicate InLease(w: World) {
    forall id :: id in w.tasks ==> w.now - w.tasks[id].claimedAt <= 300
  }

  /** Every worker of the run finishes or vanishes before its lease is over. */
  predicate Timely(now: int, run: seq<Step>) {
    forall k :: 0 <= k <= |run| ==> InLease(Run(now, run[..k]))
  }

  /** Such workers are never met overdue. */
  lemma TimelyIsPunctual(now: int, run: seq<Step>)
    requires Timely(now, run)
    ensures Punctual(now, run)
  {
    forall k | 0 <= k < |run| ensures MeetsNobody(now)(run[..k], run[k]) {
      assert InLease(Run(now, run[..k]));
    }
  }

  /** And they post within their lease. */
  lemma {:induction false} PostedInLease(now: int, run: seq<Step>, k: nat)
    requires Timely(now, run) && k < |Run(now, run).log| && Run(now, run).log[k].Posted?
    ensures Run(now, run).log[k].at <= Run(now, run).log[k].claimedAt + 300
  {
    if run != [] {
      var front := run[..|run| - 1];
      forall i | 0 <= i <= |front| ensures InLease(Run(now, front[..i])) {
        assert front[..i] == run[..i];
      }
      assert front[..|front|] == front;
      if k < |Run(now, front).log| {
        PostedInLease(now, front, k);
      }
    }
  }

  // ---------- past the lease ----------

  /** After a reclaim that met an overdue worker, another one can claim the same delivery if and only if
      attempts remain. */
  lemma OverdueShares(w: World, late: TaskId, other: TaskId)
    requires Ok(w) && late in w.tasks && w.tasks[late].claimedAt < w.now - LEASE && other !in w.tasks
    ensures var row := w.tasks[late].row;
            var u := Next(Next(w, ReclaimStep), ClaimStep(other, row));
            && late in u.tasks && u.tasks[late].row == row
            && (other in u.tasks && u.tasks[other].row == row <==> w.rows[row].attempts < w.rows[row].maxAttempts)
  {
    assert TaskOk(w, w.tasks[late]);
  }

  /** Worker 1 claims and stalls; the lease is reclaimed and worker 2 claims. */
  function Overrun(): seq<Step> {
    [Enqueue(1), ClaimStep(1, 0), Tick(LEASE + 1), ReclaimStep, ClaimStep(2, 0)]
  }

  function Attempted(w: World, id: TaskId, ok: bool): World {
    Next(Next(Next(w, CountStep(id)), PostStep(id, ok)), FinishStep(id, 0.0))
  }

  /** A worker that overruns its lease before counting can bury a delivery that had succeeded, and count
      past the limit. */
  lemma OverrunBuriesSuccess(now: int)
    ensures var delivered := Attempted(Run(now, Overrun()), 2, true);
            var buried := Attempted(delivered, 1, false);
            && !Punctual(now, Overrun())
            && |delivered.rows| == |buried.rows| == 1
            && delivered.rows[0].status == Success && buried.rows[0].status == DeadLettered
            && buried.rows[0].attempts > buried.rows[0].maxAttempts
  {
    OverrunMet(now);
    var delivered := Delivered(now);
    var buried := Buried(now, delivered);
  }

  lemma Delivered(now: int) returns (w: World)
    ensures w == Attempted(Run(now, Overrun()), 2, true)
    ensures w.rows == [Delivery(Success, 1, 1, now, Some(now + LEASE + 1))]
    ensures 1 in w.tasks && w.tasks[1] == Task(0, now, 0, 1, Waiting)
  {
    OverrunClaims(now);
    assert Overrun()[..5] == Overrun();
    AttemptedRow(Run(now, Overrun()), 2, true);
    w := Attempted(Run(now, Overrun()), 2, true);
  }

  lemma Buried(now: int, delivered: World) returns (w: World)
    requires delivered.rows == [Delivery(Success, 1, 1, now, Some(now + LEASE + 1))]
    requires 1 in delivered.tasks && delivered.tasks[1] == Task(0, now, 0, 1, Waiting)
    ensures w == Attempted(delivered, 1, false) && |w.rows| == 1
    ensures w.rows[0].status == DeadLettered && w.rows[0].attempts == 2 && w.rows[0].maxAttempts == 1
  {
    AttemptedRow(delivered, 1, false);
    w := Attempted(delivered, 1, false);
  }

  /** A first attempt from its count to its end. */
  lemma AttemptedRow(w: World, id: TaskId, ok: bool)
    requires id in w.tasks && w.tasks[id].phase.Waiting? && w.tasks[id].row < |w.rows| && w.tasks[id].attemptCount == 0
    ensures var t := w.tasks[id];
            var d := Counted(w.rows[t.row]);
            && Attempted(w, id, ok).tasks == w.tasks - {id}
            && Attempted(w, id, ok).rows
               == w.rows[t.row := if ok then d.(status := Success) else AfterFailure(d, t.maxAttempts, 1, w.now, 0.0)]
  {
    assert Jitter(1, 0.0) by { assert Pow2(0) == 1; }
  }

  lemma OverrunMet(now: int)
    ensures !Punctual(now, Overrun())
  {
    OverrunClaims(now);
    assert !MeetsNobody(now)(Overrun()[..3], Overrun()[3]);
  }

  lemma OverrunClaims(now: int)
    ensures var w := Run(now, Overrun()[..5]);
            && w.rows == [Delivery(Processing, 0, 1, now, Some(now + LEASE + 1))]
            && w.tasks == map[1 := Task(0, now, 0, 1, Waiting), 2 := Task(0, now + LEASE + 1, 0, 1, Waiting)]
    ensures Overdue(Run(now, Overrun()[..3]))
  {
    var run := Overrun();
    RunPrefix(now, run, 0);
    RunPrefix(now, run, 1);
    RunPrefix(now, run, 2);
    var w3 := Run(now, run[..3]);
    assert w3.rows == [Delivery(Processing, 0, 1, now, Some(now))] && w3.tasks == map[1 := Task(0, now, 0, 1, Waiting)];
    assert w3.now == now + LEASE + 1 && 1 in w3.tasks;
    RunPrefix(now, run, 3);
    RunPrefix(now, run, 4);
  }

  lemma RunPrefix(now: int, run: seq<Step>, k: nat)
    requires k < |run|
    ensures Run(now, run[..k + 1]) == Next(Run(now, run[..k]), run[k])
    ensures Run(now, run[..0]) == Start(now)
  {
    assert run[..k + 1][..k] == run[..k];
  }
}
