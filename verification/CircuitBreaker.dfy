/** The circuit breaker in front of each acquirer (crates/acquirer-router/src/circuit_breaker.rs). */
module CircuitBreakers {
  import opened Models

  const FAILURE_THRESHOLD := 5
  const SUCCESS_THRESHOLD := 2
  const TIMEOUT := 30

  datatype CircuitState = Closed | Open(until: int) | HalfOpen

  datatype Breaker = Breaker(state: CircuitState, failures: nat, successes: nat)

  /** A call on the breaker and the clock at which it takes the lock. */
  datatype Call = Allow(at: int) | Success(at: int) | Failure(at: int)

  const FRESH := Breaker(Closed, 0, 0)

  predicate Allowed(b: Breaker, now: int) {
    b.state.Open? ==> now >= b.state.until
  }

  function Step(b: Breaker, call: Call): Breaker {
    match call
    case Allow(now) =>
      if b.state.Open? && now >= b.state.until then b.(state := HalfOpen, successes := 0) else b
    case Success(_) =>
      if b.state.HalfOpen? then
        Breaker(if b.successes + 1 >= SUCCESS_THRESHOLD then Closed else HalfOpen, 0, b.successes + 1)
      else b.(failures := 0)
    case Failure(now) =>
      if b.failures + 1 >= FAILURE_THRESHOLD || b.state.HalfOpen? then b.(state := Open(now + TIMEOUT), failures := 0)
      else b.(failures := b.failures + 1)
  }

  /** The breaker after a history of calls, in the order they took the lock. */
  function After(calls: seq<Call>): Breaker {
    if calls == [] then FRESH else Step(After(calls[..|calls| - 1]), calls[|calls| - 1])
  }

  function StateAt(calls: seq<Call>, k: nat): CircuitState
    requires k <= |calls|
  {
    After(calls[..k]).state
  }

  lemma Extends(calls: seq<Call>, k: nat)
    requires k < |calls|
    ensures After(calls[..k + 1]) == Step(After(calls[..k]), calls[k])
    ensures calls[..|calls|] == calls
  {
    assert calls[..k + 1][..k] == calls[..k];
  }

  // ---------- the history alone ----------

  function Successes(calls: seq<Call>): nat {
    if calls == [] then 0
    else Successes(calls[..|calls| - 1]) + (if calls[|calls| - 1].Success? then 1 else 0)
  }

  /** The last call is a trip: the fifth failure since the last success or trip, or a failure while probed. */
  predicate Trips(calls: seq<Call>)
    decreases |calls|, 0
  {
    && calls != [] && calls[|calls| - 1].Failure?
    && (Streak(calls[..|calls| - 1]) + 1 == FAILURE_THRESHOLD || Probed(calls[..|calls| - 1]))
  }

  /** Failures since the last success or trip. */
  function Streak(calls: seq<Call>): nat
    decreases |calls|, 1
  {
    if calls == [] then 0
    else
      match calls[|calls| - 1]
      case Allow(_) => Streak(calls[..|calls| - 1])
      case Success(_) => 0
      case Failure(_) => if Trips(calls) then 0 else Streak(calls[..|calls| - 1]) + 1
  }

  function LastTrip(calls: seq<Call>): (i: Option<nat>)
    ensures i.Some? ==> i.value < |calls|
    decreases |calls|, 1
  {
    if calls == [] then None
    else if Trips(calls) then Some(|calls| - 1)
    else LastTrip(calls[..|calls| - 1])
  }

  /** The first request thirty seconds or more after the last trip. */
  function Probe(calls: seq<Call>): (e: Option<nat>)
    ensures e.Some? ==> e.value < |calls|
    decreases |calls|, 1
  {
    if calls == [] || Trips(calls) then None
    else
      var front, last := calls[..|calls| - 1], calls[|calls| - 1];
      if Probe(front).Some? then Probe(front)
      else if last.Allow? && LastTrip(front).Some? && last.at >= calls[LastTrip(front).value].at + TIMEOUT
      then Some(|calls| - 1) else None
  }

  /** Probed, and fewer than two successes since. */
  predicate Probed(calls: seq<Call>)
    decreases |calls|, 2
  {
    Probe(calls).Some? && Successes(calls[Probe(calls).value..]) < SUCCESS_THRESHOLD
  }

  /** What the state should be: closed before any trip, open until the probe, half-open until two successes,
      then closed again. */
  function Expected(calls: seq<Call>): CircuitState {
    if LastTrip(calls).None? then Closed
    else if Probe(calls).None? then Open(calls[LastTrip(calls).value].at + TIMEOUT)
    else if Probed(calls) then HalfOpen
    else Closed
  }

  lemma ProbeKept(calls: seq<Call>)
    requires calls != [] && !Trips(calls) && Probe(calls[..|calls| - 1]).Some?
    ensures var e := Probe(calls[..|calls| - 1]).value;
            && Probe(calls) == Some(e)
            && Successes(calls[e..])
               == Successes(calls[..|calls| - 1][e..]) + (if calls[|calls| - 1].Success? then 1 else 0)
  {
    var e := Probe(calls[..|calls| - 1]).value;
    assert calls[e..][..|calls| - 1 - e] == calls[..|calls| - 1][e..];
  }

  lemma ProbeStarts(calls: seq<Call>)
    requires calls != [] && Probe(calls) == Some(|calls| - 1)
    ensures Successes(calls[|calls| - 1..]) == 0
  {
    var one := calls[|calls| - 1..];
    assert one == [calls[|calls| - 1]] && one[..0] == [];
  }

  lemma {:induction false} ProbeAfterTrip(calls: seq<Call>)
    ensures Probe(calls).Some? ==> LastTrip(calls).Some?
  {
    if calls != [] {
      ProbeAfterTrip(calls[..|calls| - 1]);
    }
  }

  predicate Matches(calls: seq<Call>) {
    && After(calls).state == Expected(calls)
    && After(calls).failures == Streak(calls) < FAILURE_THRESHOLD
    && (Probed(calls) ==> After(calls).successes == Successes(calls[Probe(calls).value..]))
  }

  lemma TripMatches(calls: seq<Call>)
    requires Trips(calls) && Matches(calls[..|calls| - 1])
    ensures Matches(calls)
  {
    ProbeAfterTrip(calls[..|calls| - 1]);
    assert LastTrip(calls) == Some(|calls| - 1) && Probe(calls).None?;
  }

  /** A call after the probe that does not trip. */
  lemma ProbedMatches(calls: seq<Call>)
    requires calls != [] && !Trips(calls) && Matches(calls[..|calls| - 1])
    requires Probe(calls[..|calls| - 1]).Some?
    ensures Matches(calls)
  {
    ProbeKept(calls);
    ProbeAfterTrip(calls[..|calls| - 1]);
    assert LastTrip(calls) == LastTrip(calls[..|calls| - 1]);
    assert Probed(calls[..|calls| - 1]) ==> !calls[|calls| - 1].Failure?;
  }

  /** A call before any probe that does not trip. */
  lemma UnprobedMatches(calls: seq<Call>)
    requires calls != [] && !Trips(calls) && Matches(calls[..|calls| - 1])
    requires Probe(calls[..|calls| - 1]).None?
    ensures Matches(calls)
  {
    assert LastTrip(calls) == LastTrip(calls[..|calls| - 1]);
    if Probe(calls).Some? {
      ProbeStarts(calls);
    }
  }

  /** The breaker's fields are functions of the history: the state is the expected one, failure_count counts
      the failures since the last success or trip, and success_count the successes since the probe. */
  lemma {:induction false} StateFromHistory(calls: seq<Call>)
    ensures After(calls).state == Expected(calls)
    ensures After(calls).failures == Streak(calls) < FAILURE_THRESHOLD
    ensures Probed(calls) ==> After(calls).successes == Successes(calls[Probe(calls).value..])
  {
    if calls != [] {
      var front := calls[..|calls| - 1];
      StateFromHistory(front);
      if Trips(calls) {
        TripMatches(calls);
      } else if Probe(front).Some? {
        ProbedMatches(calls);
      } else {
        UnprobedMatches(calls);
      }
    }
  }

  /** Call k of the history is a trip. */
  predicate TripsAt(calls: seq<Call>, k: nat) {
    k < |calls| && Trips(calls[..k + 1])
  }

  lemma {:induction false} LatestTrip(calls: seq<Call>)
    requires LastTrip(calls).Some?
    ensures TripsAt(calls, LastTrip(calls).value)
    ensures forall k :: LastTrip(calls).value < k < |calls| ==> !TripsAt(calls, k)
  {
    var front := calls[..|calls| - 1];
    assert calls[..|calls| - 1 + 1] == calls;
    if !Trips(calls) {
      LatestTrip(front);
      var i := LastTrip(calls).value;
      assert front[..i + 1] == calls[..i + 1];
      forall k | i < k < |calls| ensures !TripsAt(calls, k) {
        if k < |front| {
          assert !TripsAt(front, k) && front[..k + 1] == calls[..k + 1];
        }
      }
    }
  }

  // ---------- what opens a closed circuit ----------

  /** A closed circuit opens exactly on the fifth failure since the last success or trip. */
  lemma OpensOnFifth(calls: seq<Call>)
    requires calls != [] && StateAt(calls, |calls| - 1).Closed?
    ensures var last := |calls| - 1;
            After(calls).state.Open? <==> calls[last].Failure? && Streak(calls[..last]) + 1 == 5
    ensures !After(calls).state.HalfOpen?
  {
    StateFromHistory(calls[..|calls| - 1]);
  }

  // ---------- what closes a half-open circuit ----------

  /** Call e is the probe that made the circuit half-open, and it has stayed so. */
  predicate HalfOpenSince(calls: seq<Call>, e: nat) {
    && e < |calls| && calls[e].Allow? && StateAt(calls, e).Open? && calls[e].at >= StateAt(calls, e).until
    && (forall k :: e < k <= |calls| ==> StateAt(calls, k).HalfOpen?)
    && (forall k :: e <= k < |calls| ==> !calls[k].Failure?)
  }

  lemma SameBefore(calls: seq<Call>)
    requires calls != []
    ensures forall k :: 0 <= k < |calls| ==> calls[..|calls| - 1][..k] == calls[..k]
  {
  }

  /** Half-open means: probed after the timeout, no failure since, and fewer than two successes. */
  lemma {:induction false} HalfOpenHistory(calls: seq<Call>) returns (e: nat)
    requires After(calls).state.HalfOpen?
    ensures HalfOpenSince(calls, e)
    ensures After(calls).successes == Successes(calls[e..]) < SUCCESS_THRESHOLD
  {
    var last := |calls| - 1;
    var front := calls[..last];
    Extends(calls, last);
    if After(front).state.HalfOpen? {
      e := HalfOpenHistory(front);
      SameBefore(calls);
      forall k | e < k <= |calls| ensures StateAt(calls, k).HalfOpen? {
        if k <= last { assert StateAt(front, k).HalfOpen?; }
      }
      assert calls[e..][..last - e] == front[e..];
    } else {
      e := last;
      assert calls[e..][..0] == [];
    }
  }

  /** A half-open circuit closes exactly on the second success since its probe, with no failure between. */
  lemma ClosesAfterTwo(calls: seq<Call>) returns (e: nat)
    requires calls != [] && StateAt(calls, |calls| - 1).HalfOpen?
    ensures HalfOpenSince(calls[..|calls| - 1], e)
    ensures var last := |calls| - 1;
            && (After(calls).state.Closed? <==> calls[last].Success? && Successes(calls[e..]) == 2)
            && (After(calls).state.Open? <==> calls[last].Failure?)
  {
    var front := calls[..|calls| - 1];
    e := HalfOpenHistory(front);
    assert calls[e..][..|calls| - 1 - e] == front[e..];
  }

  // ---------- thirty seconds of refusal ----------

  predicate Monotone(calls: seq<Call>) {
    forall i, j :: 0 <= i <= j < |calls| ==> calls[i].at <= calls[j].at
  }

  /** While open, the deadline is thirty seconds after the latest trip. */
  lemma OpenUntil(calls: seq<Call>) returns (i: nat)
    requires After(calls).state.Open?
    ensures TripsAt(calls, i) && After(calls).state.until == calls[i].at + 30
    ensures forall k :: i < k < |calls| ==> !TripsAt(calls, k)
  {
    StateFromHistory(calls);
    LatestTrip(calls);
    i := LastTrip(calls).value;
  }

  lemma TripOpens(calls: seq<Call>, i: nat)
    requires TripsAt(calls, i)
    ensures StateAt(calls, i + 1) == Open(calls[i].at + TIMEOUT)
  {
    StateFromHistory(calls[..i + 1]);
  }

  /** Between a trip and the end of its thirty seconds the circuit stays open, and later trips only extend it. */
  lemma {:induction false} StaysOpen(calls: seq<Call>, i: nat, j: nat)
    requires Monotone(calls) && TripsAt(calls, i) && i < j <= |calls|
    requires calls[j - 1].at < calls[i].at + TIMEOUT
    ensures StateAt(calls, j).Open? && StateAt(calls, j).until >= calls[i].at + TIMEOUT
  {
    if j > i + 1 {
      StaysOpen(calls, i, j - 1);
      Extends(calls, j - 1);
    } else {
      TripOpens(calls, i);
    }
  }

  /** After a trip at time t, every request before t + 30 is refused. */
  lemma RefusedAfterTrip(calls: seq<Call>, i: nat, j: nat)
    requires Monotone(calls) && TripsAt(calls, i) && i < j < |calls|
    requires calls[j].Allow? && calls[j].at < calls[i].at + 30
    ensures !Allowed(After(calls[..j]), calls[j].at)
  {
    StaysOpen(calls, i, j);
  }

  /** And nothing else is ever refused: a refusal comes within thirty seconds of a trip. */
  lemma RefusedOnlyAfterTrip(calls: seq<Call>, now: int) returns (i: nat)
    requires !Allowed(After(calls), now)
    ensures TripsAt(calls, i) && now < calls[i].at + 30
  {
    i := OpenUntil(calls);
  }

  // ---------- the object ----------

  class CircuitBreaker {
    const acquirerName: string
    const failureThreshold: nat := FAILURE_THRESHOLD
    const successThreshold: nat := SUCCESS_THRESHOLD
    const timeout: nat := TIMEOUT
    var state: CircuitState
    var failureCount: nat
    var successCount: nat
    /** Every call since construction. */
    ghost var calls: seq<Call>

    ghost function Value(): Breaker
      reads this
    {
      Breaker(state, failureCount, successCount)
    }

    ghost predicate Valid()
      reads this
    {
      Value() == After(calls)
    }

    constructor (acquirerName: string)
      ensures Valid() && calls == [] && Value() == FRESH
      ensures this.acquirerName == acquirerName
    {
      this.acquirerName := acquirerName;
      state, failureCount, successCount := Closed, 0, 0;
      calls := [];
    }

    method AllowRequest(now: int) returns (allowed: bool)
      requires Valid()
      modifies this
      ensures Valid() && calls == old(calls) + [Allow(now)]
      ensures allowed == Allowed(After(old(calls)), now)
    {
      HistoryGrows(calls, Allow(now));
      calls := calls + [Allow(now)];
      match state
      case Closed => allowed := true;
      case Open(until) =>
        if now >= until {
          state := HalfOpen;
          successCount := 0;
          allowed := true;
        } else {
          allowed := false;
        }
      case HalfOpen => allowed := true;
    }

    method RecordSuccess(now: int)
      requires Valid()
      modifies this
      ensures Valid() && calls == old(calls) + [Success(now)]
    {
      HistoryGrows(calls, Success(now));
      calls := calls + [Success(now)];
      failureCount := 0;
      if state == HalfOpen {
        successCount := successCount + 1;
        if successCount >= successThreshold {
          state := Closed;
        }
      }
    }

    method RecordFailure(now: int)
      requires Valid()
      modifies this
      ensures Valid() && calls == old(calls) + [Failure(now)]
    {
      HistoryGrows(calls, Failure(now));
      calls := calls + [Failure(now)];
      failureCount := failureCount + 1;
      if failureCount >= failureThreshold || state == HalfOpen {
        state := Open(now + timeout);
        failureCount := 0;
      }
    }

    /** Open, whether or not the timeout has passed. */
    method IsOpen() returns (open: bool)
      requires Valid()
      ensures open <==> After(calls).state.Open?
    {
      open := state.Open?;
    }
  }

  lemma HistoryGrows(calls: seq<Call>, call: Call)
    ensures After(calls + [call]) == Step(After(calls), call)
  {
  }
}
