/** Records of runs: the commands of a run and the states around them. */
module Runs {

  /** `states` are the states a run passes through, `run` the commands between them. */
  ghost predicate IsRun<S(!new), A(!new)>(next: (S, A, S) -> bool, states: seq<S>, run: seq<A>) {
    && |states| == |run| + 1
    && forall k {:trigger run[k]} | 0 <= k < |run| :: next(states[k], run[k], states[k + 1])
  }

  lemma RunGrows<S(!new), A(!new)>(next: (S, A, S) -> bool, states: seq<S>, run: seq<A>, a: A, t: S)
    requires IsRun(next, states, run) && next(states[|run|], a, t)
    ensures IsRun(next, states + [t], run + [a])
  {
    var longer := run + [a];
    forall k {:trigger longer[k]} | 0 <= k < |longer|
      ensures next((states + [t])[k], longer[k], (states + [t])[k + 1])
    {
      assert k < |run| ==> longer[k] == run[k];
    }
  }

  lemma RunShrinks<S(!new), A(!new)>(next: (S, A, S) -> bool, states: seq<S>, run: seq<A>)
    requires IsRun(next, states, run) && run != []
    ensures IsRun(next, states[..|run|], run[..|run| - 1])
    ensures next(states[|run| - 1], run[|run| - 1], states[|run|])
  {
    var shorter := run[..|run| - 1];
    forall k {:trigger shorter[k]} | 0 <= k < |shorter| ensures next(states[k], shorter[k], states[k + 1]) {
      assert shorter[k] == run[k];
    }
    assert next(states[|run| - 1], run[|run| - 1], states[|run|]);
  }
}
