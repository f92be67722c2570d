/** Which webhook deliveries can still end in success or dead_lettered, and which never will
    (crates/webhook-service/src/retry_scheduler.rs). */
module Stranding {
  import opened Models
  import opened Prefixes
  import opened Webhooks

  predicate Held(w: World, row: nat) {
    exists id :: id in w.tasks && w.tasks[id].row == row
  }

  /** Neither delivered nor given up, no attempt left, and in nobody's hands. */
  predicate Stranded(w: World, row: nat) {
    row < |w.rows| && !w.rows[row].Final() && w.rows[row].attempts >= w.rows[row].maxAttempts && !Held(w, row)
  }

  predicate Ended(w: World, row: nat) {
    row < |w.rows| && w.rows[row].Final()
  }

  // ---------- a stranded delivery stays stranded ----------

  lemma StrandedStays(w: World, step: Step, row: nat)
    requires Stranded(w, row)
    ensures Stranded(Next(w, step), row)
  {
    assert forall id :: id in w.tasks ==> w.tasks[id].row != row;
    assert forall id :: id in Next(w, step).tasks ==> Next(w, step).tasks[id].row != row;
  }

  /** Whatever happens afterwards, overrun leases included. */
  lemma {:induction false} StrandedForever(now: int, run: seq<Step>, longer: seq<Step>, row: nat)
    requires run <= longer && Stranded(Run(now, run), row)
    ensures Stranded(Run(now, longer), row)
    decreases |longer|
  {
    if |longer| == |run| {
      assert longer == run;
    } else {
      var front := longer[..|longer| - 1];
      assert front[..|run|] == run;
      StrandedForever(now, run, front, row);
      StrandedStays(Run(now, front), longer[|longer| - 1], row);
    }
  }

  // ---------- every other delivery can still end ----------

  lemma Extends(now: int, run: seq<Step>, step: Step)
    requires Punctual(now, run) && (step.ReclaimStep? ==> !Overdue(Run(now, run)))
    ensures Punctual(now, run + [step]) && Run(now, run + [step]) == Next(Run(now, run), step)
    ensures run <= run + [step]
  {
    Extended(run, step, MeetsNobody(now));
    assert (run + [step])[..|run|] == run;
  }

  lemma NoJitter(attempt: int)
    requires attempt >= 1
    ensures Jitter(attempt, 0.0)
  {
    CappedAt(attempt);
  }

  /** A task whose POST was answered: it ends the delivery, unless the POST failed and attempts are left. */
  lemma FromAnswered(now: int, run: seq<Step>, id: TaskId) returns (longer: seq<Step>)
    requires Punctual(now, run) && id in Run(now, run).tasks && Run(now, run).tasks[id].phase.Answered?
    ensures run <= longer && Punctual(now, longer)
    ensures var w, u, t := Run(now, run), Run(now, longer), Run(now, run).tasks[id];
            if t.phase.ok || t.Attempt() >= t.maxAttempts then Ended(u, t.row)
            else t.row < |u.rows| && !u.rows[t.row].Final() && !Held(u, t.row)
                 && u.rows[t.row].attempts < u.rows[t.row].maxAttempts
  {
    Reachable(now, run);
    var w := Run(now, run);
    var t := w.tasks[id];
    assert TaskOk(w, t);
    NoJitter(t.Attempt());
    Extends(now, run, FinishStep(id, 0.0));
    longer := run + [FinishStep(id, 0.0)];
    assert forall other :: other in Run(now, longer).tasks ==> Run(now, longer).tasks[other].row != t.row;
  }

  lemma FromCounting(now: int, run: seq<Step>, id: TaskId) returns (longer: seq<Step>)
    requires Punctual(now, run) && id in Run(now, run).tasks && Run(now, run).tasks[id].phase.Counting?
    ensures run <= longer && Punctual(now, longer) && Ended(Run(now, longer), Run(now, run).tasks[id].row)
  {
    Extends(now, run, PostStep(id, true));
    longer := FromAnswered(now, run + [PostStep(id, true)], id);
  }

  lemma FromWaiting(now: int, run: seq<Step>, id: TaskId) returns (longer: seq<Step>)
    requires Punctual(now, run) && id in Run(now, run).tasks && Run(now, run).tasks[id].phase.Waiting?
    ensures run <= longer && Punctual(now, longer) && Ended(Run(now, longer), Run(now, run).tasks[id].row)
  {
    Reachable(now, run);
    assert TaskOk(Run(now, run), Run(now, run).tasks[id]);
    Extends(now, run, CountStep(id));
    longer := FromCounting(now, run + [CountStep(id)], id);
  }

  /** Every worker vanishes; the rows stay as they are. */
  lemma {:induction false} AllCrash(now: int, run: seq<Step>) returns (longer: seq<Step>)
    requires Punctual(now, run)
    ensures run <= longer && Punctual(now, longer)
    ensures var w, u := Run(now, run), Run(now, longer); u.tasks == map[] && u.rows == w.rows && u.now == w.now
    decreases |Run(now, run).tasks|
  {
    var w := Run(now, run);
    if w.tasks == map[] {
      longer := run;
    } else {
      var id :| id in w.tasks;
      Extends(now, run, CrashStep(id));
      assert (w.tasks - {id}).Keys == w.tasks.Keys - {id};
      longer := AllCrash(now, run + [CrashStep(id)]);
    }
  }

  /** A delivery being processed carries the time of its claim. */
  predicate Started(w: World) {
    forall row :: 0 <= row < |w.rows| && w.rows[row].status == Processing ==> w.rows[row].startedAt.Some?
  }

  lemma StartedStays(w: World, step: Step)
    requires Started(w)
    ensures Started(Next(w, step))
  {
  }

  lemma {:induction false} AlwaysStarted(now: int, run: seq<Step>)
    ensures Started(Run(now, run))
  {
    if run != [] {
      AlwaysStarted(now, run[..|run| - 1]);
      StartedStays(Run(now, run[..|run| - 1]), run[|run| - 1]);
    }
  }

  /** Long enough for the row's lease to run out and its retry to be due. */
  function Wait(d: Delivery, now: int): nat {
    var lease := if d.startedAt.Some? && d.startedAt.value + LEASE + 1 > now then d.startedAt.value + LEASE + 1 - now else 0;
    var retry := if d.nextRetryAt > now then d.nextRetryAt - now else 0;
    lease + retry
  }

  /** With attempts left, a delivery in nobody's hands becomes due again and can be delivered. */
  lemma FromIdle(now: int, run: seq<Step>, row: nat) returns (longer: seq<Step>)
    requires Punctual(now, run) && Run(now, run).tasks == map[] && row < |Run(now, run).rows|
    requires !Run(now, run).rows[row].Final() && Run(now, run).rows[row].attempts < Run(now, run).rows[row].maxAttempts
    ensures run <= longer && Punctual(now, longer) && Ended(Run(now, longer), row)
  {
    AlwaysStarted(now, run);
    var wait := Tick(Wait(Run(now, run).rows[row], Run(now, run).now));
    Extends(now, run, wait);
    var later := run + [wait];
    assert !Overdue(Run(now, later));
    Extends(now, later, ReclaimStep);
    var freed := later + [ReclaimStep];
    assert Run(now, freed).rows[row].Due(Run(now, freed).now);
    Extends(now, freed, ClaimStep(0, row));
    longer := FromWaiting(now, freed + [ClaimStep(0, row)], 0);
  }

  lemma FromUnheld(now: int, run: seq<Step>, row: nat) returns (longer: seq<Step>)
    requires Punctual(now, run) && row < |Run(now, run).rows| && !Run(now, run).rows[row].Final()
    requires Run(now, run).rows[row].attempts < Run(now, run).rows[row].maxAttempts
    ensures run <= longer && Punctual(now, longer) && Ended(Run(now, longer), row)
  {
    var idle := AllCrash(now, run);
    longer := FromIdle(now, idle, row);
  }

  lemma CanEnd(now: int, run: seq<Step>, row: nat) returns (longer: seq<Step>)
    requires Punctual(now, run) && row < |Run(now, run).rows| && !Stranded(Run(now, run), row)
    ensures run <= longer && Punctual(now, longer) && Ended(Run(now, longer), row)
  {
    var w := Run(now, run);
    if w.rows[row].Final() {
      longer := run;
    } else if id :| id in w.tasks && w.tasks[id].row == row {
      var t := w.tasks[id];
      match t.phase
      case Waiting => longer := FromWaiting(now, run, id);
      case Counting => longer := FromCounting(now, run, id);
      case Answered(ok) =>
        longer := FromAnswered(now, run, id);
        if !ok && t.Attempt() < t.maxAttempts {
          longer := FromUnheld(now, longer, row);
        }
    } else {
      longer := FromUnheld(now, run, row);
    }
  }

  /** Some continuation that meets no overdue worker ends the delivery. */
  ghost predicate MayEnd(now: int, run: seq<Step>, row: nat) {
    exists longer :: run <= longer && Punctual(now, longer) && Ended(Run(now, longer), row)
  }

  /** A delivery can still end in success or dead_lettered if and only if it is not stranded; a stranded one
      ends in no continuation at all. */
  lemma EndsUnlessStranded(now: int, run: seq<Step>, row: nat)
    requires Punctual(now, run) && row < |Run(now, run).rows|
    ensures MayEnd(now, run, row) <==> !Stranded(Run(now, run), row)
    ensures Stranded(Run(now, run), row) ==> forall longer :: run <= longer ==> !Ended(Run(now, longer), row)
  {
    if Stranded(Run(now, run), row) {
      forall longer | run <= longer ensures !Ended(Run(now, longer), row) {
        StrandedForever(now, run, longer, row);
      }
    } else {
      var longer := CanEnd(now, run, row);
    }
  }

  // ---------- how a delivery strands ----------

  /** The worker vanishes after it counted the last allowed attempt and before it recorded the answer. */
  predicate LosesLastAttempt(w: World, step: Step, row: nat) {
    && step.CrashStep? && step.task in w.tasks && w.tasks[step.task].row == row
    && !w.tasks[step.task].phase.Waiting? && w.tasks[step.task].Attempt() >= w.tasks[step.task].maxAttempts
  }

  /** A delivery strands by that crash or, allowed no attempt at all, as it is created; in no other way. */
  lemma StrandsByCrash(w: World, step: Step, row: nat)
    requires Webhooks.Ok(w) && !Stranded(w, row)
    ensures Stranded(Next(w, step), row) <==>
              LosesLastAttempt(w, step, row) || (step == Enqueue(0) && row == |w.rows|)
  {
    var u := Next(w, step);
    assert forall id :: id in w.tasks ==> TaskOk(w, w.tasks[id]);
    if LosesLastAttempt(w, step, row) {
      assert TaskOk(w, w.tasks[step.task]);
      assert !Held(u, row);
    } else if row < |w.rows| {
      StrandsNotOtherwise(w, step, row);
    }
  }

  lemma StrandsNotOtherwise(w: World, step: Step, row: nat)
    requires Webhooks.Ok(w) && row < |w.rows| && !Stranded(w, row) && !LosesLastAttempt(w, step, row)
    ensures !Stranded(Next(w, step), row)
  {
    var u := Next(w, step);
    if Held(w, row) {
      var id :| id in w.tasks && w.tasks[id].row == row;
      assert TaskOk(w, w.tasks[id]);
      if id in u.tasks {
        assert u.tasks[id].row == row;
      }
    }
  }

  lemma NothingReclaimed(now: int, run: seq<Step>)
    requires forall k :: 0 <= k < |run| ==> !run[k].ReclaimStep?
    ensures Punctual(now, run)
  {
  }

  /** Such a crash after the count strands the only attempt of a delivery. */
  lemma CrashAfterCount(now: int)
    ensures var run := [Enqueue(1), ClaimStep(1, 0), CountStep(1), CrashStep(1)];
            Punctual(now, run) && Stranded(Run(now, run), 0)
  {
    var run := [Enqueue(1), ClaimStep(1, 0), CountStep(1), CrashStep(1)];
    NothingReclaimed(now, run);
    CountedOnce(now);
    RunPrefix(now, run, 3);
    assert run[..3] == [Enqueue(1), ClaimStep(1, 0), CountStep(1)] && run[..4] == run;
  }

  lemma CountedOnce(now: int)
    ensures var w := Run(now, [Enqueue(1), ClaimStep(1, 0), CountStep(1)]);
            && w.rows == [Delivery(Processing, 1, 1, now, Some(now))]
            && w.tasks == map[1 := Task(0, now, 0, 1, Counting)]
  {
    var run := [Enqueue(1), ClaimStep(1, 0), CountStep(1)];
    RunPrefix(now, run, 0);
    RunPrefix(now, run, 1);
    RunPrefix(now, run, 2);
    assert run[..3] == run;
  }

  /** One step earlier, before the count, it strands nothing: a lease later the delivery is due again. */
  lemma CrashBeforeCount(now: int)
    ensures var run := [Enqueue(1), ClaimStep(1, 0), CrashStep(1), Tick(LEASE + 1), ReclaimStep];
            |Run(now, run).rows| == 1 && Run(now, run).rows[0].Due(Run(now, run).now)
  {
    var run := [Enqueue(1), ClaimStep(1, 0), CrashStep(1), Tick(LEASE + 1), ReclaimStep];
    RunPrefix(now, run, 0);
    RunPrefix(now, run, 1);
    RunPrefix(now, run, 2);
    RunPrefix(now, run, 3);
    RunPrefix(now, run, 4);
    assert run[..5] == run;
    assert Run(now, run[..3]).rows == [Delivery(Processing, 0, 1, now, Some(now))];
  }
}
