/** The outbox columns against what the broker answered (crates/outbox-worker/src/worker.rs). */
module Deliveries {
  import opened Outbox
  import opened Prefixes

  /** The step is the broker's answer about this row to a worker that waits for it. */
  predicate Answers(w: World, step: Step, row: nat, acknowledged: bool) {
    && step.SendStep? && step.row == row && step.acknowledged == acknowledged && step.worker in w.workers
    && row in w.workers[step.worker].claimed - w.workers[step.worker].sent - w.workers[step.worker].failed
  }

  /** The step commits a batch with this row among those sent or, for `sent` false, among those that failed. */
  predicate Records(w: World, step: Step, row: nat, sent: bool) {
    && step.CommitStep? && step.worker in w.workers
    && w.workers[step.worker].claimed == w.workers[step.worker].sent + w.workers[step.worker].failed
    && row in if sent then w.workers[step.worker].sent else w.workers[step.worker].failed
  }

  /** How often the broker has acknowledged or refused the row. */
  ghost function AnswerCount(now: int, run: seq<Step>, row: nat, acknowledged: bool): nat {
    if run == [] then 0
    else
      var front := run[..|run| - 1];
      AnswerCount(now, front, row, acknowledged)
      + if Answers(Run(now, front), run[|run| - 1], row, acknowledged) then 1 else 0
  }

  /** How often committed batches held the row as sent or as failed. */
  ghost function RecordCount(now: int, run: seq<Step>, row: nat, sent: bool): nat {
    if run == [] then 0
    else
      var front := run[..|run| - 1];
      RecordCount(now, front, row, sent) + if Records(Run(now, front), run[|run| - 1], row, sent) then 1 else 0
  }

  /** The workers that hold the row's answer and have not committed it. */
  ghost function Holding(w: World, row: nat, acknowledged: bool): set<WorkerId> {
    set id | id in w.workers && row in if acknowledged then w.workers[id].sent else w.workers[id].failed
  }

  lemma ColumnsStep(w: World, step: Step, row: nat)
    requires Safe(w) && row < |w.rows|
    ensures var r, u := w.rows[row], Next(w, step);
            && row < |u.rows|
            && u.rows[row].failedAttempts == r.failedAttempts + (if Records(w, step, row, false) then 1 else 0)
            && (u.rows[row].published <==> r.published || Records(w, step, row, true))
  {
    assert step.CommitStep? && step.worker in w.workers ==> BatchOk(w, w.workers[step.worker]);
  }

  lemma NewRow(w: World, step: Step, row: nat)
    requires Safe(w) && |w.rows| <= row
    ensures !Records(w, step, row, true) && !Records(w, step, row, false)
    ensures row < |Next(w, step).rows| ==>
              !Next(w, step).rows[row].published && Next(w, step).rows[row].failedAttempts == 0
  {
    assert step.CommitStep? && step.worker in w.workers ==> BatchOk(w, w.workers[step.worker]);
  }

  /** published and failed_attempts record the committed batches exactly. */
  lemma {:induction false} ColumnsTold(now: int, run: seq<Step>, row: nat)
    ensures var w := Run(now, run);
            if row < |w.rows| then
              && w.rows[row].failedAttempts == RecordCount(now, run, row, false)
              && (w.rows[row].published <==> RecordCount(now, run, row, true) > 0)
            else RecordCount(now, run, row, false) == RecordCount(now, run, row, true) == 0
  {
    if run != [] {
      var front, step := run[..|run| - 1], run[|run| - 1];
      ColumnsTold(now, front, row);
      PublishedWasSent(now, front);
      if row < |Run(now, front).rows| {
        ColumnsStep(Run(now, front), step, row);
      } else {
        NewRow(Run(now, front), step, row);
      }
    }
  }

  lemma SendHolding(w: World, id: WorkerId, sent: nat, answer: bool, row: nat, acknowledged: bool)
    ensures var step := SendStep(id, sent, answer);
            Holding(Next(w, step), row, acknowledged)
            <= Holding(w, row, acknowledged) + if Answers(w, step, row, acknowledged) then {id} else {}
  {
  }

  lemma CommitHolding(w: World, id: WorkerId, row: nat, acknowledged: bool)
    ensures Holding(Next(w, CommitStep(id)), row, acknowledged) <= Holding(w, row, acknowledged)
    ensures Records(w, CommitStep(id), row, acknowledged) ==>
              id in Holding(w, row, acknowledged) && id !in Holding(Next(w, CommitStep(id)), row, acknowledged)
  {
  }

  lemma QuietHolding(w: World, step: Step, row: nat, acknowledged: bool)
    requires !step.SendStep? && !step.CommitStep?
    ensures Holding(Next(w, step), row, acknowledged) <= Holding(w, row, acknowledged)
  {
  }

  lemma HoldingStep(w: World, step: Step, row: nat, acknowledged: bool)
    ensures |Holding(Next(w, step), row, acknowledged)| + (if Records(w, step, row, acknowledged) then 1 else 0)
         <= |Holding(w, row, acknowledged)| + (if Answers(w, step, row, acknowledged) then 1 else 0)
  {
    var before, after := Holding(w, row, acknowledged), Holding(Next(w, step), row, acknowledged);
    match step
    case SendStep(id, sent, answer) =>
      SendHolding(w, id, sent, answer, row, acknowledged);
      Subset(after, before + if Answers(w, step, row, acknowledged) then {id} else {});
    case CommitStep(id) =>
      CommitHolding(w, id, row, acknowledged);
      Subset(after, if Records(w, step, row, acknowledged) then before - {id} else before);
    case _ =>
      QuietHolding(w, step, row, acknowledged);
      Subset(after, before);
  }

  lemma Subset<T>(a: set<T>, b: set<T>)
    requires a <= b
    ensures |a| <= |b|
  {
    assert b == a + (b - a);
  }

  lemma {:induction false} RecordedWasAnswered(now: int, run: seq<Step>, row: nat, acknowledged: bool)
    ensures RecordCount(now, run, row, acknowledged) + |Holding(Run(now, run), row, acknowledged)|
         <= AnswerCount(now, run, row, acknowledged)
  {
    if run == [] {
      assert Holding(Run(now, run), row, acknowledged) == {};
    } else {
      var front, step := run[..|run| - 1], run[|run| - 1];
      RecordedWasAnswered(now, front, row, acknowledged);
      HoldingStep(Run(now, front), step, row, acknowledged);
    }
  }

  /** Whatever the workers, their speed and their crashes: an event is published only if the broker acknowledged
      it, and is charged no more failed attempts than the broker refused it; so one dead-lettered was refused ten
      times at least. */
  lemma ColumnsWereAnswered(now: int, run: seq<Step>, row: nat)
    requires row < |Run(now, run).rows|
    ensures var r := Run(now, run).rows[row];
            && (r.published ==> AnswerCount(now, run, row, true) > 0)
            && 0 <= r.failedAttempts <= AnswerCount(now, run, row, false)
            && (r.Finished() && !r.published ==> AnswerCount(now, run, row, false) >= 10)
  {
    ColumnsTold(now, run, row);
    RecordedWasAnswered(now, run, row, true);
    RecordedWasAnswered(now, run, row, false);
  }

  // ---------- finished events ----------

  /** A finished event is not locked. */
  predicate Released(w: World) {
    forall i :: 0 <= i < |w.rows| && w.rows[i].Finished() ==> w.rows[i].lockedAt.None?
  }

  lemma ReleasedStep(w: World, step: Step)
    requires Safe(w) && Leased(w) && Released(w)
    ensures Released(Next(w, step))
    ensures forall i :: 0 <= i < |w.rows| && w.rows[i].Finished() ==> Next(w, step).rows[i] == w.rows[i]
  {
    if step.CommitStep? && step.worker in w.workers {
      var b := w.workers[step.worker];
      assert BatchOk(w, b);
      assert forall i :: i in b.claimed ==> Owns(w, b, i);
    }
  }

  lemma {:induction false} AlwaysReleased(now: int, run: seq<Step>)
    requires Punctual(now, run)
    ensures Released(Run(now, run))
  {
    if run != [] {
      var front := run[..|run| - 1];
      Front(run, MeetsNobody(now));
      AlwaysReleased(now, front);
      PunctualLeased(now, front);
      ReleasedStep(Run(now, front), run[|run| - 1]);
    }
  }

  /** While no reclaim meets an overdue worker, a published or dead-lettered event is never written again. */
  lemma FinishedForever(now: int, run: seq<Step>, step: Step, i: nat)
    requires Punctual(now, run) && i < |Run(now, run).rows| && Run(now, run).rows[i].Finished()
    ensures i < |Next(Run(now, run), step).rows| && Next(Run(now, run), step).rows[i] == Run(now, run).rows[i]
  {
    AlwaysReleased(now, run);
    PunctualLeased(now, run);
    ReleasedStep(Run(now, run), step);
  }
}
