/** The claiming queries: ORDER BY a timestamp, LIMIT, SKIP LOCKED. */
module Claims {

  function Ids(s: seq<nat>): set<nat> {
    set i | i in s
  }

  predicate Distinct(s: seq<nat>) {
    forall i, j :: 0 <= i < j < |s| ==> s[i] != s[j]
  }

  /** `batch` is what the limit allows of the candidates, smallest keys first. */
  ghost predicate SmallestPrefix(keys: seq<int>, candidates: set<nat>, limit: nat, batch: set<nat>)
    requires InRange(keys, candidates)
  {
    && batch <= candidates
    && |batch| == (if |candidates| < limit then |candidates| else limit)
    && forall i, j :: i in batch && j in candidates && j !in batch ==> keys[i] <= keys[j]
  }

  predicate InRange<T>(rows: seq<T>, ids: set<nat>) {
    forall i :: i in ids ==> i < |rows|
  }

  /** In other words: no more than the limit, candidates only, and one is left only for as many no larger. */
  lemma PrefixExact(keys: seq<int>, candidates: set<nat>, limit: nat, batch: set<nat>)
    requires InRange(keys, candidates)
    ensures SmallestPrefix(keys, candidates, limit, batch) <==>
              && |batch| <= limit && batch <= candidates
              && forall j :: j in candidates && j !in batch ==>
                   |batch| == limit && forall i :: i in batch ==> keys[i] <= keys[j]
  {
    if batch <= candidates {
      assert candidates == batch + (candidates - batch);
      if batch != candidates {
        var j :| j in candidates && j !in batch;
        assert |candidates - batch| > 0;
      }
    }
  }

  lemma IdsSnoc(s: seq<nat>, i: nat)
    ensures Ids(s + [i]) == Ids(s) + {i}
  {
  }

  lemma DistinctSnoc(s: seq<nat>, i: nat)
    requires Distinct(s) && i !in Ids(s)
    ensures Distinct(s + [i])
  {
  }

  lemma {:induction false} IdsSize(s: seq<nat>)
    requires Distinct(s)
    ensures |Ids(s)| == |s|
  {
    if s != [] {
      var front, last := s[..|s| - 1], s[|s| - 1];
      IdsSize(front);
      assert Ids(s) == Ids(front) + {last};
    }
  }

  method Smallest(keys: seq<int>, ids: set<nat>) returns (smallest: nat)
    requires ids != {} && InRange(keys, ids)
    ensures smallest in ids
    ensures forall i :: i in ids ==> keys[smallest] <= keys[i]
  {
    smallest :| smallest in ids;
    var rest := ids - {smallest};
    while rest != {}
      invariant rest <= ids && smallest in ids
      invariant forall i :: i in ids - rest ==> keys[smallest] <= keys[i]
    {
      var i :| i in rest;
      if keys[i] < keys[smallest] {
        smallest := i;
      }
      rest := rest - {i};
    }
  }

  /** What was taken from the candidates so far is no larger than what is left. */
  predicate TakenFirst(keys: seq<int>, candidates: set<nat>, rest: set<nat>)
    requires InRange(keys, candidates)
  {
    && rest <= candidates
    && (forall i, j :: i in candidates && i !in rest && j in rest ==> keys[i] <= keys[j])
  }

  /** Some candidate with the smallest key. */
  lemma {:induction false} HasSmallest(keys: seq<int>, ids: set<nat>) returns (smallest: nat)
    requires ids != {} && InRange(keys, ids)
    ensures smallest in ids && forall i :: i in ids ==> keys[smallest] <= keys[i]
  {
    var some :| some in ids;
    smallest := some;
    if ids != {some} {
      var other := HasSmallest(keys, ids - {some});
      assert forall i :: i in ids ==> i == some || i in ids - {some};
      if keys[other] < keys[some] {
        smallest := other;
      }
    }
  }

  /** Whatever the limit, some batch is what it allows. */
  lemma {:induction false} HasPrefix(keys: seq<int>, candidates: set<nat>, limit: nat) returns (batch: set<nat>)
    requires InRange(keys, candidates)
    ensures SmallestPrefix(keys, candidates, limit, batch)
  {
    if limit == 0 || candidates == {} {
      batch := {};
    } else {
      var first := HasSmallest(keys, candidates);
      var rest := HasPrefix(keys, candidates - {first}, limit - 1);
      batch := rest + {first};
    }
  }

  /** Takes the smallest candidates one at a time, up to the limit. */
  method TakeSmallest(keys: seq<int>, candidates: set<nat>, limit: nat) returns (batch: seq<nat>)
    requires InRange(keys, candidates)
    ensures Distinct(batch)
    ensures SmallestPrefix(keys, candidates, limit, Ids(batch))
  {
    var rest := candidates;
    batch := [];
    while |batch| < limit && rest != {}
      invariant Distinct(batch) && |batch| <= limit
      invariant |batch| + |rest| == |candidates|
      invariant TakenFirst(keys, candidates, rest) && Ids(batch) == candidates - rest
    {
      var i := Smallest(keys, rest);
      IdsSnoc(batch, i);
      DistinctSnoc(batch, i);
      batch, rest := batch + [i], rest - {i};
    }
    IdsSize(batch);
  }
}
