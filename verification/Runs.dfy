/** Runs of step systems: a flag that some steps set, and none clears, tells whether one was taken. */
module Runs {

  /** run takes the same step for the last action, whatever came before. */
  ghost predicate Folds<S(!new), A(!new)>(run: seq<A> -> S, step: (S, A) -> S) {
    forall actions: seq<A>, a: A :: run(actions + [a]) == step(run(actions), a)
  }

  /** These steps set the flag, in any state, and no others do. */
  ghost predicate Sets<S(!new), A(!new)>(step: (S, A) -> S, cause: (S, A) -> bool, flag: S -> bool) {
    forall s: S, a: A :: flag(step(s, a)) <==> flag(s) || cause(s, a)
  }

  /** The action at position k is such a step when it is taken. */
  predicate Took<S, A>(run: seq<A> -> S, actions: seq<A>, k: nat, cause: (S, A) -> bool) {
    k < |actions| && cause(run(actions[..k]), actions[k])
  }

  lemma {:induction false} FlagExactly<S(!new), A(!new)>(run: seq<A> -> S, step: (S, A) -> S, actions: seq<A>,
                                                         cause: (S, A) -> bool, flag: S -> bool)
    requires Folds(run, step) && Sets(step, cause, flag) && !flag(run([]))
    ensures flag(run(actions)) <==> exists k: nat :: Took(run, actions, k, cause)
  {
    if actions != [] {
      var n, before, a := |actions| - 1, actions[..|actions| - 1], actions[|actions| - 1];
      FlagExactly(run, step, before, cause, flag);
      assert actions == before + [a];
      assert flag(step(run(before), a)) <==> flag(run(before)) || cause(run(before), a);
      assert forall k: nat :: k < n ==> actions[..k] == before[..k];
      if k: nat :| Took(run, before, k, cause) {
        assert Took(run, actions, k, cause);
      }
      if cause(run(before), a) {
        assert Took(run, actions, n, cause);
      }
      if k: nat :| Took(run, actions, k, cause) {
        assert k < n ==> Took(run, before, k, cause);
      }
    }
  }
}
