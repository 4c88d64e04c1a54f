/** Runs of a state machine: a step function applied to a list of actions, in order. */
module Runs {

  function Fold<S, A>(step: (S, A) -> S, s: S, actions: seq<A>): S {
    if actions == [] then s else
      step(Fold(step, s, actions[..|actions| - 1]), actions[|actions| - 1])
  }

  /** A run can be cut anywhere: what follows starts from the state reached so far. */
  lemma {:induction false} FoldSplit<S, A>(step: (S, A) -> S, s: S, actions: seq<A>, k: nat)
    requires k <= |actions|
    ensures Fold(step, s, actions) == Fold(step, Fold(step, s, actions[..k]), actions[k..])
  {
    if k < |actions| {
      var n := |actions| - 1;
      FoldSplit(step, s, actions[..n], k);
      assert actions[..n][..k] == actions[..k] && actions[..n][k..] == actions[k..][..n - k];
    } else {
      assert actions[..k] == actions;
    }
  }
}
