/** Conditions that every step of a run meets, given the steps before it. */
module Prefixes {

  ghost predicate AtEachStep<S>(run: seq<S>, p: (seq<S>, S) -> bool) {
    forall k :: 0 <= k < |run| ==> p(run[..k], run[k])
  }

  lemma Extended<S>(run: seq<S>, step: S, p: (seq<S>, S) -> bool)
    ensures AtEachStep(run + [step], p) <==> AtEachStep(run, p) && p(run, step)
  {
    var longer := run + [step];
    assert longer[|run|] == step && longer[..|run|] == run;
    if AtEachStep(longer, p) {
      forall k | 0 <= k < |run| ensures p(run[..k], run[k]) {
        assert longer[..k] == run[..k] && longer[k] == run[k];
      }
    }
    if AtEachStep(run, p) && p(run, step) {
      forall k | 0 <= k < |longer| ensures p(longer[..k], longer[k]) {
        if k < |run| {
          assert longer[..k] == run[..k] && longer[k] == run[k];
        }
      }
    }
  }

  lemma Front<S>(run: seq<S>, p: (seq<S>, S) -> bool)
    requires run != []
    ensures AtEachStep(run, p) <==> AtEachStep(run[..|run| - 1], p) && p(run[..|run| - 1], run[|run| - 1])
  {
    Extended(run[..|run| - 1], run[|run| - 1], p);
    assert run == run[..|run| - 1] + [run[|run| - 1]];
  }

  lemma Prefix<S>(run: seq<S>, n: nat, p: (seq<S>, S) -> bool)
    requires AtEachStep(run, p) && n <= |run|
    ensures AtEachStep(run[..n], p)
  {
    forall k | 0 <= k < n ensures p(run[..n][..k], run[..n][k]) {
      assert run[..n][..k] == run[..k];
    }
  }
}
