/** Priority failover over acquirers (crates/acquirer-router/src/router.rs). */
module Router {
  import opened CircuitBreakers

  datatype Failed = AllAcquirersFailed | AcquirerDeclined(code: string, message: string) | Other(text: string)

  /** What an adapter, or the router itself, answers. */
  datatype Answer = Ok(reference: string) | Err(error: Failed)
  {
    /** An answer after which no other acquirer is asked. */
    predicate Decisive() {
      Ok? || error.AcquirerDeclined?
    }
  }

  class AcquirerEntry {
    const name: string
    const priority: nat
    const breaker: CircuitBreaker

    constructor (name: string, priority: nat)
      ensures this.name == name && this.priority == priority
      ensures fresh(breaker) && breaker.Valid() && breaker.calls == []
    {
      this.name, this.priority := name, priority;
      breaker := new CircuitBreaker(name);
    }
  }

  // ---------- registration: push, then stable sort ----------

  predicate Sorted(s: seq<AcquirerEntry>) {
    forall i, j :: 0 <= i < j < |s| ==> s[i].priority <= s[j].priority
  }

  /** The entries of one priority, in list order. */
  function OfPriority(s: seq<AcquirerEntry>, p: nat): seq<AcquirerEntry> {
    if s == [] then []
    else OfPriority(s[..|s| - 1], p) + (if s[|s| - 1].priority == p then [s[|s| - 1]] else [])
  }

  /** `a` holds the entries of each priority in the order of `b`. */
  ghost predicate SameTies(a: seq<AcquirerEntry>, b: seq<AcquirerEntry>) {
    forall p :: OfPriority(a, p) == OfPriority(b, p)
  }

  /** `a` is `b` sorted by priority, ties in their order in `b`. */
  ghost predicate StablySorted(a: seq<AcquirerEntry>, b: seq<AcquirerEntry>) {
    Sorted(a) && SameTies(a, b)
  }

  lemma {:induction false} OfPriorityConcat(a: seq<AcquirerEntry>, b: seq<AcquirerEntry>, p: nat)
    ensures OfPriority(a + b, p) == OfPriority(a, p) + OfPriority(b, p)
  {
    if b == [] {
      assert a + b == a;
    } else {
      assert (a + b)[..|a + b| - 1] == a + b[..|b| - 1];
      OfPriorityConcat(a, b[..|b| - 1], p);
    }
  }

  lemma {:induction false} NoneOfPriority(s: seq<AcquirerEntry>, p: nat)
    ensures OfPriority(s, p) == [] <==> forall i :: 0 <= i < |s| ==> s[i].priority != p
  {
    if s != [] {
      NoneOfPriority(s[..|s| - 1], p);
      assert forall i :: 0 <= i < |s| - 1 ==> s[..|s| - 1][i] == s[i];
    }
  }

  /** A list holds an entry of each priority the other does. */
  lemma SharedPriority(a: seq<AcquirerEntry>, b: seq<AcquirerEntry>, i: nat)
    requires i < |a| && OfPriority(a, a[i].priority) == OfPriority(b, a[i].priority)
    ensures exists j :: 0 <= j < |b| && b[j].priority == a[i].priority
  {
    NoneOfPriority(a, a[i].priority);
    NoneOfPriority(b, a[i].priority);
  }

  lemma AtMostLast(a: seq<AcquirerEntry>, b: seq<AcquirerEntry>, i: nat)
    requires Sorted(b) && b != [] && i < |a| && OfPriority(a, a[i].priority) == OfPriority(b, a[i].priority)
    ensures a[i].priority <= b[|b| - 1].priority
  {
    SharedPriority(a, b, i);
    var j :| 0 <= j < |b| && b[j].priority == a[i].priority;
  }

  lemma SnocEqual<T>(x: seq<T>, a: T, y: seq<T>, b: T)
    requires x + [a] == y + [b]
    ensures x == y && a == b
  {
    assert x == (x + [a])[..|x + [a]| - 1] && y == (y + [b])[..|y + [b]| - 1];
    assert a == (x + [a])[|x|] && b == (y + [b])[|y|];
  }

  /** The last entry of a sorted list is the last of the largest priority present. */
  lemma LastOfSorted(a: seq<AcquirerEntry>, b: seq<AcquirerEntry>)
    requires Sorted(a) && Sorted(b) && a != [] && b != [] && SameTies(a, b)
    ensures a[|a| - 1] == b[|b| - 1]
  {
    var last, other := a[|a| - 1], b[|b| - 1];
    AtMostLast(a, b, |a| - 1);
    AtMostLast(b, a, |b| - 1);
    var p := last.priority;
    assert other.priority == p;
    SnocEqual(OfPriority(a[..|a| - 1], p), last, OfPriority(b[..|b| - 1], p), other);
  }

  lemma SameWithoutLast(a: seq<AcquirerEntry>, b: seq<AcquirerEntry>, p: nat)
    requires a != [] && b != [] && a[|a| - 1] == b[|b| - 1] && OfPriority(a, p) == OfPriority(b, p)
    ensures OfPriority(a[..|a| - 1], p) == OfPriority(b[..|b| - 1], p)
  {
    var last, restA, restB := a[|a| - 1], OfPriority(a[..|a| - 1], p), OfPriority(b[..|b| - 1], p);
    if last.priority == p {
      SnocEqual(restA, last, restB, last);
    } else {
      assert restA + [] == restA && restB + [] == restB;
    }
  }

  /** The stable sort of a list is unique, so any stable sorting algorithm gives this order. */
  lemma {:induction false} StableSortUnique(a: seq<AcquirerEntry>, b: seq<AcquirerEntry>)
    requires Sorted(a) && Sorted(b) && SameTies(a, b)
    ensures a == b
    decreases |a|
  {
    if a == [] {
      if b != [] { SharedPriority(b, a, 0); }
    } else {
      SharedPriority(a, b, 0);
      LastOfSorted(a, b);
      var restA, restB := a[..|a| - 1], b[..|b| - 1];
      forall p ensures OfPriority(restA, p) == OfPriority(restB, p) {
        SameWithoutLast(a, b, p);
      }
      StableSortUnique(restA, restB);
    }
  }

  /** Moving a later entry before one of larger priority keeps the order within every priority. */
  lemma SwapKeepsTies(s: seq<AcquirerEntry>, j: nat, p: nat)
    requires 0 < j < |s| && s[j - 1].priority != s[j].priority
    ensures OfPriority(s[j - 1 := s[j]][j := s[j - 1]], p) == OfPriority(s, p)
  {
    var t := s[j - 1 := s[j]][j := s[j - 1]];
    var x, y := s[j - 1], s[j];
    assert s == s[..j - 1] + ([x] + [y]) + s[j + 1..];
    assert t == s[..j - 1] + ([y] + [x]) + s[j + 1..];
    OfPriorityConcat(s[..j - 1] + ([x] + [y]), s[j + 1..], p);
    OfPriorityConcat(s[..j - 1] + ([y] + [x]), s[j + 1..], p);
    OfPriorityConcat(s[..j - 1], [x] + [y], p);
    OfPriorityConcat(s[..j - 1], [y] + [x], p);
    OfPriorityConcat([x], [y], p);
    OfPriorityConcat([y], [x], p);
  }

  lemma SwapStep(s: seq<AcquirerEntry>, j: nat, original: seq<AcquirerEntry>)
    requires 0 < j < |s| && s[j - 1].priority != s[j].priority && SameTies(s, original)
    ensures SameTies(s[j - 1 := s[j]][j := s[j - 1]], original)
  {
    forall p ensures OfPriority(s[j - 1 := s[j]][j := s[j - 1]], p) == OfPriority(original, p) {
      SwapKeepsTies(s, j, p);
    }
  }

  lemma AppendTies(a: seq<AcquirerEntry>, b: seq<AcquirerEntry>, s: seq<AcquirerEntry>)
    requires SameTies(a, b)
    ensures SameTies(a + s, b + s)
  {
    forall p ensures OfPriority(a + s, p) == OfPriority(b + s, p) {
      OfPriorityConcat(a, s, p);
      OfPriorityConcat(b, s, p);
    }
  }

  /** Entry j is in its place in an otherwise sorted list. */
  lemma InPlace(s: seq<AcquirerEntry>, j: nat, rest: seq<AcquirerEntry>)
    requires j < |s| && rest == s[..j] + s[j + 1..] && Sorted(rest)
    requires j > 0 ==> s[j - 1].priority <= s[j].priority
    requires forall k :: j < k < |s| ==> s[j].priority < s[k].priority
    ensures Sorted(s)
  {
    assert forall k :: 0 <= k < j ==> s[k] == rest[k];
    assert forall k :: j < k < |s| ==> s[k] == rest[k - 1];
  }

  /** `s` with its last entry moved to position `at`. */
  function LastMoved(s: seq<AcquirerEntry>, at: nat): seq<AcquirerEntry>
    requires at < |s|
  {
    s[..at] + [s[|s| - 1]] + s[at..|s| - 1]
  }

  /** Sorts a list that was sorted before its last entry was pushed. */
  method SortByPriority(pushed: seq<AcquirerEntry>) returns (sorted: seq<AcquirerEntry>, ghost at: nat)
    requires pushed != [] && Sorted(pushed[..|pushed| - 1])
    ensures StablySorted(sorted, pushed)
    ensures at < |pushed| && sorted == LastMoved(pushed, at)
  {
    sorted := pushed;
    var j := |sorted| - 1;
    while j > 0 && sorted[j - 1].priority > sorted[j].priority
      invariant 0 <= j < |pushed| && sorted == LastMoved(pushed, j)
      invariant forall k :: j < k < |sorted| ==> sorted[j].priority < sorted[k].priority
      invariant SameTies(sorted, pushed)
    {
      SwapStep(sorted, j, pushed);
      sorted := sorted[j - 1 := sorted[j]][j := sorted[j - 1]];
      j := j - 1;
    }
    at := j;
    assert sorted[..j] + sorted[j + 1..] == pushed[..|pushed| - 1];
    InPlace(sorted, j, pushed[..|pushed| - 1]);
  }

  // ---------- one charge ----------

  /** What a charge meets at one entry: is_open when the candidates are chosen, allow_request when the entry
      is reached, the adapter's answer, and the clock at the two calls on the breaker. */
  datatype Turn = Turn(open: bool, allowed: bool, answer: Answer, allowAt: int, recordAt: int)
  {
    predicate Tried() {
      !open && allowed
    }

    predicate Stops() {
      Tried() && answer.Decisive()
    }

    /** The calls of a charge that reaches this candidate. */
    function Calls(): seq<Call> {
      if !allowed then [Allow(allowAt)]
      else if answer.Ok? then [Allow(allowAt), Success(recordAt)]
      else if answer.error.AcquirerDeclined? then [Allow(allowAt)]
      else [Allow(allowAt), Failure(recordAt)]
    }

    /** The calls of a capture or refund that reaches this entry. */
    function ForwardCalls(): seq<Call> {
      if !allowed then [Allow(allowAt)]
      else [Allow(allowAt), if answer.Ok? then Success(recordAt) else Failure(recordAt)]
    }
  }

  /** No earlier entry stopped the charge. */
  predicate Reached(turns: seq<Turn>, i: nat)
    requires i <= |turns|
  {
    forall k :: 0 <= k < i ==> !turns[k].Stops()
  }

  /** The calls a charge makes on the breaker of entry `i`. */
  function Made(turns: seq<Turn>, i: nat): seq<Call>
    requires i < |turns|
  {
    if !Reached(turns, i) || turns[i].open then [] else turns[i].Calls()
  }

  /** The error of the last entry tried among the first `n`. */
  function LastError(turns: seq<Turn>, n: nat): Failed
    requires n <= |turns|
  {
    if n == 0 then AllAcquirersFailed
    else if turns[n - 1].Tried() && turns[n - 1].answer.Err? then turns[n - 1].answer.error
    else LastError(turns, n - 1)
  }

  /** What the charge answers, from entry `i` on. */
  function Outcome(turns: seq<Turn>, i: nat): Answer
    requires i <= |turns|
    decreases |turns| - i
  {
    if i == |turns| then Err(LastError(turns, i))
    else if turns[i].Stops() then turns[i].answer
    else Outcome(turns, i + 1)
  }

  /** An entry that failed with anything but a decline, and was charged one failure for it. */
  predicate FailedOnce(turns: seq<Turn>, i: nat)
    requires i < |turns|
  {
    var t := turns[i];
    t.answer.Err? && !t.answer.error.AcquirerDeclined? && Made(turns, i) == [Allow(t.allowAt), Failure(t.recordAt)]
  }

  lemma {:induction false} FirstStop(turns: seq<Turn>, i: nat) returns (k: nat)
    requires i <= |turns| && Reached(turns, i)
    ensures i <= k <= |turns| && Reached(turns, k)
    ensures k < |turns| ==> turns[k].Stops() && Outcome(turns, i) == turns[k].answer
    ensures k == |turns| ==> Outcome(turns, i) == Err(LastError(turns, k))
    decreases |turns| - i
  {
    if i == |turns| || turns[i].Stops() {
      k := i;
    } else {
      k := FirstStop(turns, i + 1);
    }
  }

  /** Entry `k` decided the charge: every entry tried before it failed and was charged one failure, it was
      charged a success or nothing, and no later breaker was touched. */
  predicate DecidedBy(turns: seq<Turn>, k: nat) {
    && k < |turns| && turns[k].Tried() && turns[k].answer == Outcome(turns, 0)
    && (forall i :: 0 <= i < k && turns[i].Tried() ==> FailedOnce(turns, i))
    && Made(turns, k) == [Allow(turns[k].allowAt)] + (if Outcome(turns, 0).Ok? then [Success(turns[k].recordAt)] else [])
    && (forall i :: k < i < |turns| ==> Made(turns, i) == [])
  }

  /** Success or a decline comes from one entry. */
  lemma Failover(turns: seq<Turn>)
    requires Outcome(turns, 0).Decisive()
    ensures exists k :: DecidedBy(turns, k)
  {
    var k := FirstStop(turns, 0);
    if k == |turns| { NeverDeclined(turns, k); }
    assert DecidedBy(turns, k);
  }

  lemma {:induction false} NeverDeclined(turns: seq<Turn>, n: nat)
    requires n <= |turns| && Reached(turns, n)
    ensures !LastError(turns, n).AcquirerDeclined?
  {
    if n > 0 {
      NeverDeclined(turns, n - 1);
    }
  }

  /** Any other answer means that every entry tried failed, and it is the error of the last of them. */
  lemma AllFailed(turns: seq<Turn>)
    requires !Outcome(turns, 0).Decisive()
    ensures forall i :: 0 <= i < |turns| && turns[i].Tried() ==> FailedOnce(turns, i)
    ensures Outcome(turns, 0) == Err(LastError(turns, |turns|))
  {
    var k := FirstStop(turns, 0);
  }

  /** A charge touches some breaker exactly when some circuit is not open, and an open one never: the thirty
      seconds play no part. With every circuit open it fails, however long ago they opened. */
  lemma OpenNeverProbed(turns: seq<Turn>)
    ensures forall i :: 0 <= i < |turns| && turns[i].open ==> Made(turns, i) == []
    ensures (exists i :: 0 <= i < |turns| && Made(turns, i) != []) <==> (exists i :: 0 <= i < |turns| && !turns[i].open)
    ensures (forall i :: 0 <= i < |turns| ==> turns[i].open) ==> Outcome(turns, 0) == Err(AllAcquirersFailed)
  {
    if j: nat :| j < |turns| && !turns[j].open {
      var i := FirstClosed(turns, j);
      assert Reached(turns, i);
      assert Made(turns, i) != [];
    } else {
      NothingTried(turns, 0);
    }
  }

  lemma {:induction false} FirstClosed(turns: seq<Turn>, j: nat) returns (i: nat)
    requires j < |turns| && !turns[j].open
    ensures i <= j && !turns[i].open && forall k :: 0 <= k < i ==> turns[k].open
  {
    if k: nat :| k < j && !turns[k].open {
      i := FirstClosed(turns, k);
    } else {
      i := j;
    }
  }

  lemma {:induction false} NothingTried(turns: seq<Turn>, i: nat)
    requires i <= |turns| && forall k :: 0 <= k < |turns| ==> turns[k].open
    ensures Outcome(turns, i) == Err(AllAcquirersFailed)
    ensures LastError(turns, i) == AllAcquirersFailed
    decreases |turns| - i
  {
    NoError(turns, i);
    if i < |turns| {
      NothingTried(turns, i + 1);
    }
  }

  lemma {:induction false} NoError(turns: seq<Turn>, n: nat)
    requires n <= |turns| && forall k :: 0 <= k < n ==> turns[k].open
    ensures LastError(turns, n) == AllAcquirersFailed
  {
    if n > 0 {
      NoError(turns, n - 1);
    }
  }

  /** Open circuits between two entries change nothing. */
  lemma {:induction false} SkipOpen(turns: seq<Turn>, i: nat, j: nat)
    requires i <= j <= |turns| && Reached(turns, i) && forall k :: i <= k < j ==> turns[k].open
    ensures Reached(turns, j) && LastError(turns, j) == LastError(turns, i) && Outcome(turns, i) == Outcome(turns, j)
    decreases j
  {
    if i < j {
      SkipOpen(turns, i, j - 1);
    }
  }

  ghost predicate Selected(turns: seq<Turn>, candidates: seq<nat>) {
    && (forall c, d :: 0 <= c < d < |candidates| ==> candidates[c] < candidates[d])
    && (forall c :: 0 <= c < |candidates| ==> candidates[c] < |turns|)
    && (forall i: nat :: i in candidates <==> i < |turns| && !turns[i].open)
  }

  /** What a charge meets, from the breakers' histories, if nothing else touches the breakers meanwhile. */
  function Turns(histories: seq<seq<Call>>, answers: seq<Answer>, clock: nat -> (int, int)): seq<Turn>
    requires |answers| == |histories|
  {
    seq(|histories|, i requires 0 <= i < |histories| =>
      var breaker := After(histories[i]);
      Turn(breaker.state.Open?, Allowed(breaker, clock(i).0), answers[i], clock(i).0, clock(i).1))
  }

  /** The breakers' histories when a charge has come to entry `n`. */
  function Charged(histories: seq<seq<Call>>, turns: seq<Turn>, n: nat): seq<seq<Call>>
    requires |turns| == |histories|
  {
    seq(|histories|, i requires 0 <= i < |histories| => if i < n then histories[i] + Made(turns, i) else histories[i])
  }

  predicate AllOpen(histories: seq<seq<Call>>) {
    forall i :: 0 <= i < |histories| ==> After(histories[i]).state.Open?
  }

  /** One charge: what each acquirer would answer, and the clock at its two calls on the breaker. */
  datatype Attempted = Attempted(answers: seq<Answer>, clock: nat -> (int, int))

  /** The histories after a series of charges, latest last. */
  function AfterCharges(histories: seq<seq<Call>>, charges: seq<Attempted>): (h: seq<seq<Call>>)
    requires forall c :: 0 <= c < |charges| ==> |charges[c].answers| == |histories|
    ensures |h| == |histories|
  {
    if charges == [] then histories
    else
      var last := |charges| - 1;
      var before := AfterCharges(histories, charges[..last]);
      Charged(before, Turns(before, charges[last].answers, charges[last].clock), |before|)
  }

  /** Once every circuit is open, charges alone never get through again, at any time: each fails with
      AllAcquirersFailed and leaves every breaker as it was. */
  lemma {:induction false} ChargesNeverRecover(histories: seq<seq<Call>>, charges: seq<Attempted>)
    requires AllOpen(histories) && forall c :: 0 <= c < |charges| ==> |charges[c].answers| == |histories|
    ensures AfterCharges(histories, charges) == histories
    ensures forall c :: 0 <= c < |charges| ==>
              Outcome(Turns(histories, charges[c].answers, charges[c].clock), 0) == Err(AllAcquirersFailed)
  {
    if charges != [] {
      var last := |charges| - 1;
      ChargesNeverRecover(histories, charges[..last]);
      var turns := Turns(histories, charges[last].answers, charges[last].clock);
      OpenNeverProbed(turns);
      assert forall h: seq<Call> :: h + [] == h;
      forall c | 0 <= c < |charges|
        ensures Outcome(Turns(histories, charges[c].answers, charges[c].clock), 0) == Err(AllAcquirersFailed)
      {
        if c < last { assert charges[..last][c] == charges[c]; }
      }
    }
  }

  /** A capture or refund does probe: an elapsed circuit that it reaches becomes half-open. */
  lemma ForwardProbesElapsed(histories: seq<seq<Call>>, answers: seq<Answer>, clock: nat -> (int, int), i: nat)
    requires i < |histories| == |answers|
    requires After(histories[i]).state.Open? && clock(i).0 >= After(histories[i]).state.until
    requires FirstAllowed(Turns(histories, answers, clock), 0) >= i
    ensures var turns := Turns(histories, answers, clock);
            && ForwardOutcome(turns) == answers[i] && Made(turns, i) == []
            && |ForwardMade(turns, i)| == 2 && ForwardMade(turns, i)[0] == Allow(clock(i).0)
    ensures After(histories[i] + [Allow(clock(i).0)]).state.HalfOpen?
  {
    HistoryGrows(histories[i], Allow(clock(i).0));
    var turns := Turns(histories, answers, clock);
    assert turns[i].allowed && FirstAllowed(turns, 0) == i;
  }

  /** What passing one candidate adds to the histories. */
  lemma PassCandidate(histories: seq<seq<Call>>, turns: seq<Turn>, i: nat)
    requires i < |turns| == |histories| && Reached(turns, i) && !turns[i].open
    ensures var n := if turns[i].Stops() then |turns| else i + 1;
            Charged(histories, turns, n) == Charged(histories, turns, i)[i := histories[i] + turns[i].Calls()]
    ensures Charged(histories, turns, i)[i] == histories[i]
  {
    assert forall k :: i < k < |turns| && turns[i].Stops() ==> Made(turns, k) == [];
    assert forall h: seq<Call> :: h + [] == h;
    assert Made(turns, i) == turns[i].Calls();
  }

  lemma PassOutcome(turns: seq<Turn>, i: nat)
    requires i < |turns| && Reached(turns, i) && !turns[i].open
    ensures turns[i].Stops() ==> Outcome(turns, i) == turns[i].answer
    ensures !turns[i].Stops() ==>
              && Reached(turns, i + 1) && Outcome(turns, i) == Outcome(turns, i + 1)
              && LastError(turns, i + 1) == if turns[i].Tried() then turns[i].answer.error else LastError(turns, i)
  {
  }

  /** Where the search for candidate `c` starts. */
  function SearchFrom(candidates: seq<nat>, c: nat): nat
    requires c <= |candidates|
  {
    if c == 0 then 0 else candidates[c - 1] + 1
  }

  /** From one candidate to the next every circuit is open. */
  lemma NextCandidate(histories: seq<seq<Call>>, turns: seq<Turn>, candidates: seq<nat>, c: nat) returns (next: nat)
    requires Selected(turns, candidates) && c <= |candidates| && |turns| == |histories|
    requires Reached(turns, SearchFrom(candidates, c))
    ensures next == if c < |candidates| then candidates[c] else |turns|
    ensures SearchFrom(candidates, c) <= next <= |turns| && Reached(turns, next)
    ensures LastError(turns, next) == LastError(turns, SearchFrom(candidates, c))
    ensures Outcome(turns, next) == Outcome(turns, SearchFrom(candidates, c))
    ensures Charged(histories, turns, next) == Charged(histories, turns, SearchFrom(candidates, c))
  {
    next := if c < |candidates| then candidates[c] else |turns|;
    forall k: nat | SearchFrom(candidates, c) <= k < next ensures turns[k].open {
      assert forall d :: 0 <= d < |candidates| ==> candidates[d] != k;
      assert k !in candidates;
    }
    SkipOpen(turns, SearchFrom(candidates, c), next);
    assert forall h: seq<Call> :: h + [] == h;
  }

  // ---------- one capture or refund ----------

  /** The first entry whose circuit lets a request through, or the number of entries. */
  function FirstAllowed(turns: seq<Turn>, i: nat): (k: nat)
    requires i <= |turns|
    ensures i <= k <= |turns| && (k < |turns| ==> turns[k].allowed)
    ensures forall j :: i <= j < k ==> !turns[j].allowed
    decreases |turns| - i
  {
    if i == |turns| || turns[i].allowed then i else FirstAllowed(turns, i + 1)
  }

  function ForwardOutcome(turns: seq<Turn>): Answer {
    var k := FirstAllowed(turns, 0);
    if k < |turns| then turns[k].answer else Err(AllAcquirersFailed)
  }

  /** The calls a capture or refund makes on the breaker of entry `i`. */
  function ForwardMade(turns: seq<Turn>, i: nat): seq<Call>
    requires i < |turns|
  {
    if i <= FirstAllowed(turns, 0) then turns[i].ForwardCalls() else []
  }

  function Forwarded(histories: seq<seq<Call>>, turns: seq<Turn>, n: nat): seq<seq<Call>>
    requires |turns| == |histories|
  {
    seq(|histories|, i requires 0 <= i < |histories| => if i < n then histories[i] + ForwardMade(turns, i) else histories[i])
  }

  lemma ForwardStep(histories: seq<seq<Call>>, turns: seq<Turn>, i: nat)
    requires i < |turns| == |histories| && FirstAllowed(turns, 0) >= i
    ensures var n := if turns[i].allowed then |turns| else i + 1;
            Forwarded(histories, turns, n) == Forwarded(histories, turns, i)[i := histories[i] + turns[i].ForwardCalls()]
    ensures turns[i].allowed <==> FirstAllowed(turns, 0) == i
  {
    assert forall h: seq<Call> :: h + [] == h;
  }

  /** Entry `k` served the capture or refund, or it is the number of entries and none did: those before it
      refused, it records a success or, on any error, a failure, and later breakers are untouched. */
  predicate ServedBy(turns: seq<Turn>, k: nat) {
    && k <= |turns|
    && (forall i :: 0 <= i < k ==> !turns[i].allowed && ForwardMade(turns, i) == [Allow(turns[i].allowAt)])
    && (forall i :: k < i < |turns| ==> ForwardMade(turns, i) == [])
    && if k == |turns| then ForwardOutcome(turns) == Err(AllAcquirersFailed)
       else
         var t := turns[k];
         && t.allowed && ForwardOutcome(turns) == t.answer
         && (t.answer.Ok? ==> ForwardMade(turns, k) == [Allow(t.allowAt), Success(t.recordAt)])
         && (t.answer.Err? ==> ForwardMade(turns, k) == [Allow(t.allowAt), Failure(t.recordAt)])
  }

  /** One entry serves it, or all refuse. */
  lemma Forwarding(turns: seq<Turn>)
    ensures exists k :: ServedBy(turns, k)
    ensures forall j, k :: ServedBy(turns, j) && ServedBy(turns, k) ==> j == k
  {
    assert ServedBy(turns, FirstAllowed(turns, 0));
  }

  /** A breaker's history after a series of captures and refunds that came to it, latest last. */
  function AfterForwards(calls: seq<Call>, turns: seq<Turn>): seq<Call> {
    if turns == [] then calls
    else AfterForwards(calls, turns[..|turns| - 1]) + turns[|turns| - 1].ForwardCalls()
  }

  /** Each was let through exactly when the breaker allowed it. */
  predicate Asked(calls: seq<Call>, turns: seq<Turn>) {
    forall k :: 0 <= k < |turns| ==>
      (turns[k].allowed <==> Allowed(After(AfterForwards(calls, turns[..k])), turns[k].allowAt))
  }

  lemma AskedFront(calls: seq<Call>, turns: seq<Turn>)
    requires turns != [] && Asked(calls, turns)
    ensures Asked(calls, turns[..|turns| - 1])
    ensures var before := AfterForwards(calls, turns[..|turns| - 1]);
            turns[|turns| - 1].allowed <==> Allowed(After(before), turns[|turns| - 1].allowAt)
  {
    var front := turns[..|turns| - 1];
    forall k | 0 <= k < |front|
      ensures front[k].allowed <==> Allowed(After(AfterForwards(calls, front[..k])), front[k].allowAt)
    {
      assert front[..k] == turns[..k] && front[k] == turns[k];
    }
  }

  /** The call that follows the request. */
  function Recorded(turn: Turn): Call {
    if turn.answer.Ok? then Success(turn.recordAt) else Failure(turn.recordAt)
  }

  /** What one capture or refund leaves of a breaker. */
  function Served(b: Breaker, turn: Turn): Breaker {
    var asked := Step(b, Allow(turn.allowAt));
    if Allowed(b, turn.allowAt) then Step(asked, Recorded(turn)) else asked
  }

  function ServedAll(b: Breaker, turns: seq<Turn>): Breaker {
    if turns == [] then b else Served(ServedAll(b, turns[..|turns| - 1]), turns[|turns| - 1])
  }

  lemma ServedOne(calls: seq<Call>, turn: Turn)
    requires turn.allowed <==> Allowed(After(calls), turn.allowAt)
    ensures After(calls + turn.ForwardCalls()) == Served(After(calls), turn)
  {
    var asked := calls + [Allow(turn.allowAt)];
    HistoryGrows(calls, Allow(turn.allowAt));
    if turn.allowed {
      HistoryGrows(asked, Recorded(turn));
      assert calls + turn.ForwardCalls() == asked + [Recorded(turn)];
    }
  }

  /** The histories of captures and refunds leave the breaker as serving them one by one does. */
  lemma {:induction false} ServedHistory(calls: seq<Call>, turns: seq<Turn>)
    requires Asked(calls, turns)
    ensures After(AfterForwards(calls, turns)) == ServedAll(After(calls), turns)
  {
    if turns != [] {
      AskedFront(calls, turns);
      ServedHistory(calls, turns[..|turns| - 1]);
      ServedOne(AfterForwards(calls, turns[..|turns| - 1]), turns[|turns| - 1]);
    }
  }

  lemma {:induction false} FailuresAddUp(b: Breaker, turns: seq<Turn>)
    requires b.state.Closed? && b.failures + |turns| <= 5
    requires forall k :: 0 <= k < |turns| ==> turns[k].answer.Err?
    ensures var after := ServedAll(b, turns);
            if b.failures + |turns| == 5 && turns != [] then after.state == Open(turns[|turns| - 1].recordAt + 30)
            else after.state.Closed? && after.failures == b.failures + |turns|
  {
    if turns != [] {
      FailuresAddUp(b, turns[..|turns| - 1]);
    }
  }

  lemma {:induction false} SuccessesKeepIt(b: Breaker, turns: seq<Turn>)
    requires !b.state.Open? && forall k :: 0 <= k < |turns| ==> turns[k].answer.Ok?
    ensures !ServedAll(b, turns).state.Open?
  {
    if turns != [] {
      SuccessesKeepIt(b, turns[..|turns| - 1]);
    }
  }

  /** Captures and refunds that fail, declined ones too, open a closed circuit exactly when they make five
      failures since its last success. */
  lemma FailingForwardsOpen(calls: seq<Call>, turns: seq<Turn>)
    requires After(calls).state.Closed? && Asked(calls, turns)
    requires forall k :: 0 <= k < |turns| ==> turns[k].answer.Err?
    requires turns != [] && After(calls).failures + |turns| <= 5
    ensures var b := After(AfterForwards(calls, turns));
            if After(calls).failures + |turns| == 5 then b.state == Open(turns[|turns| - 1].recordAt + 30)
            else b.state.Closed? && b.failures == After(calls).failures + |turns|
  {
    ServedHistory(calls, turns);
    FailuresAddUp(After(calls), turns);
  }

  /** Those that succeed never open one. */
  lemma SucceedingForwardsNeverOpen(calls: seq<Call>, turns: seq<Turn>)
    requires !After(calls).state.Open? && Asked(calls, turns)
    requires forall k :: 0 <= k < |turns| ==> turns[k].answer.Ok?
    ensures !After(AfterForwards(calls, turns)).state.Open?
  {
    ServedHistory(calls, turns);
    SuccessesKeepIt(After(calls), turns);
  }

  // ---------- the router ----------

  class AcquirerRouter {
    var acquirers: seq<AcquirerEntry>
    /** The entries in the order they were registered. */
    ghost var registered: seq<AcquirerEntry>

    ghost function Breakers(): set<CircuitBreaker>
      reads this
    {
      set e | e in acquirers :: e.breaker
    }

    ghost predicate Valid()
      reads this, Breakers()
    {
      StablySorted(acquirers, registered) && Wired()
    }

    /** Every entry has a breaker of its own. */
    ghost predicate Wired()
      reads this, Breakers()
    {
      && (forall i, j :: 0 <= i < j < |acquirers| ==> acquirers[i].breaker != acquirers[j].breaker)
      && (forall i :: 0 <= i < |acquirers| ==> acquirers[i].breaker.Valid())
    }

    constructor ()
      ensures Valid() && acquirers == [] && registered == []
    {
      acquirers, registered := [], [];
    }

    /** After any series of registrations the list is sorted by priority, ties in registration order. */
    method Register(name: string, priority: nat) returns (entry: AcquirerEntry)
      requires Valid()
      modifies this
      ensures Valid() && fresh(entry) && fresh(entry.breaker)
      ensures entry.name == name && entry.priority == priority && entry.breaker.calls == []
      ensures registered == old(registered) + [entry]
    {
      entry := new AcquirerEntry(name, priority);
      AppendTies(acquirers, registered, [entry]);
      ghost var at;
      acquirers, at := SortByPriority(acquirers + [entry]);
      registered := registered + [entry];
    }

    ghost function Histories(): (h: seq<seq<Call>>)
      reads this, Breakers()
      ensures |h| == |acquirers|
    {
      seq(|acquirers|, i requires 0 <= i < |acquirers| reads this, Breakers() => acquirers[i].breaker.calls)
    }

    /** The entries whose circuit is not open, in list order. */
    method Candidates() returns (candidates: seq<nat>)
      requires Wired()
      ensures forall c, d :: 0 <= c < d < |candidates| ==> candidates[c] < candidates[d]
      ensures forall c :: 0 <= c < |candidates| ==> candidates[c] < |acquirers|
      ensures forall i: nat :: i in candidates <==> i < |acquirers| && !After(acquirers[i].breaker.calls).state.Open?
    {
      candidates := [];
      for i := 0 to |acquirers|
        invariant forall c :: 0 <= c < |candidates| ==> candidates[c] < i
        invariant forall c, d :: 0 <= c < d < |candidates| ==> candidates[c] < candidates[d]
        invariant forall k: nat :: k in candidates <==> k < i && !After(acquirers[k].breaker.calls).state.Open?
      {
        var open := acquirers[i].breaker.IsOpen();
        if !open {
          candidates := candidates + [i];
        }
      }
    }

    /** The loop has come to entry `n`. */
    ghost predicate Progress(before: seq<seq<Call>>, turns: seq<Turn>, n: nat, lastErr: Failed)
      reads this, Breakers()
    {
      && Wired() && n <= |turns| == |before| == |acquirers|
      && Histories() == Charged(before, turns, n)
      && Reached(turns, n) && Outcome(turns, n) == Outcome(turns, 0) && lastErr == LastError(turns, n)
    }

    /** One candidate: ask its breaker, then the acquirer, then record the answer. */
    method Attempt(
      i: nat, answer: Answer, allowAt: int, recordAt: int, lastErr: Failed,
      ghost before: seq<seq<Call>>, ghost turns: seq<Turn>) returns (done: bool, err: Failed)
      requires Progress(before, turns, i, lastErr) && i < |turns|
      requires turns[i] == Turn(false, Allowed(After(before[i]), allowAt), answer, allowAt, recordAt)
      modifies acquirers[i].breaker
      ensures done == turns[i].Stops()
      ensures if done then Wired() && Histories() == Charged(before, turns, |turns|) && answer == Outcome(turns, 0)
              else Progress(before, turns, i + 1, err)
    {
      PassCandidate(before, turns, i);
      PassOutcome(turns, i);
      done, err := false, lastErr;
      var breaker := acquirers[i].breaker;
      assert breaker.calls == Histories()[i];
      var allowed := breaker.AllowRequest(allowAt);
      if allowed {
        match answer
        case Ok(_) =>
          breaker.RecordSuccess(recordAt);
          done := true;
        case Err(AcquirerDeclined(_, _)) =>
          done := true;
        case Err(e) =>
          breaker.RecordFailure(recordAt);
          err := e;
      }
      assert breaker.calls == before[i] + turns[i].Calls();
    }

    /** Asks the acquirers in priority order until one answers for good. */
    method Charge(answers: seq<Answer>, clock: nat -> (int, int)) returns (answer: Answer)
      requires Valid() && |answers| == |acquirers|
      modifies Breakers()
      ensures Valid()
      ensures var turns := Turns(old(Histories()), answers, clock);
              answer == Outcome(turns, 0) && Histories() == Charged(old(Histories()), turns, |acquirers|)
    {
      var candidates := Candidates();
      answer := TryCandidates(candidates, answers, clock, Turns(Histories(), answers, clock));
    }

    method TryCandidates(candidates: seq<nat>, answers: seq<Answer>, clock: nat -> (int, int), ghost turns: seq<Turn>)
      returns (answer: Answer)
      requires Wired() && |answers| == |acquirers|
      requires turns == Turns(Histories(), answers, clock) && Selected(turns, candidates)
      modifies Breakers()
      ensures Wired() && answer == Outcome(turns, 0)
      ensures Histories() == Charged(old(Histories()), turns, |acquirers|)
    {
      ghost var before := Histories();
      var lastErr := AllAcquirersFailed;
      ghost var next := NextCandidate(before, turns, candidates, 0);
      for c := 0 to |candidates|
        invariant next == if c < |candidates| then candidates[c] else |turns|
        invariant Progress(before, turns, next, lastErr)
      {
        var i := candidates[c];
        assert i in candidates;
        var done, err := Attempt(i, answers[i], clock(i).0, clock(i).1, lastErr, before, turns);
        if done {
          return answers[i];
        }
        lastErr := err;
        next := NextCandidate(before, turns, candidates, c + 1);
      }
      return Err(lastErr);
    }

    /** One entry of a capture or refund: any error counts as a failure here, a decline too. */
    method Send(i: nat, ghost turn: Turn, answer: Answer, allowAt: int, recordAt: int) returns (sent: bool)
      requires Wired() && i < |acquirers|
      requires turn.answer == answer && turn.allowAt == allowAt && turn.recordAt == recordAt
      requires turn.allowed == Allowed(After(Histories()[i]), allowAt)
      modifies acquirers[i].breaker
      ensures Wired() && sent == turn.allowed
      ensures Histories() == old(Histories())[i := old(Histories())[i] + turn.ForwardCalls()]
    {
      var breaker := acquirers[i].breaker;
      sent := breaker.AllowRequest(allowAt);
      if sent {
        if answer.Ok? {
          breaker.RecordSuccess(recordAt);
        } else {
          breaker.RecordFailure(recordAt);
        }
      }
      assert breaker.calls == old(breaker.calls) + turn.ForwardCalls();
    }

    /** Capture and refund: the first acquirer whose circuit allows it gets the request. */
    method Forward(answers: seq<Answer>, clock: nat -> (int, int)) returns (answer: Answer)
      requires Valid() && |answers| == |acquirers|
      modifies Breakers()
      ensures Valid()
      ensures var turns := Turns(old(Histories()), answers, clock);
              answer == ForwardOutcome(turns) && Histories() == Forwarded(old(Histories()), turns, |acquirers|)
    {
      ghost var before, turns := Histories(), Turns(Histories(), answers, clock);
      for i := 0 to |acquirers|
        invariant Wired()
        invariant FirstAllowed(turns, 0) >= i
        invariant Histories() == Forwarded(before, turns, i)
      {
        ForwardStep(before, turns, i);
        var sent := Send(i, turns[i], answers[i], clock(i).0, clock(i).1);
        if sent {
          return answers[i];
        }
      }
      return Err(AllAcquirersFailed);
    }
  }
}
