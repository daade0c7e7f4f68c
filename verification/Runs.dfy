/**
 Runs of a step system. A system is a set of initial states and a partial step
 function; every choice the environment or the scheduler makes is part of the action,
 so "for every run" quantifies over all interleavings and all outcomes of outside calls.
 */
module Runs {
  import opened Wrappers

  datatype Run<S, A> = Run(states: seq<S>, actions: seq<A>)

  ghost predicate IsRun<S(!new), A(!new)>(init: S -> bool, step: (S, A) -> Option<S>, run: Run<S, A>) {
    && |run.states| == |run.actions| + 1
    && init(run.states[0])
    && forall i | 0 <= i < |run.actions| :: step(run.states[i], run.actions[i]) == Some(run.states[i + 1])
  }

  /** inv holds initially and every step keeps it. */
  ghost predicate Inductive<S(!new), A(!new)>(init: S -> bool, step: (S, A) -> Option<S>, inv: S -> bool) {
    && (forall s | init(s) :: inv(s))
    && (forall s, a | inv(s) && step(s, a).Some? :: inv(step(s, a).value))
  }

  /** Once p holds in a state satisfying inv, it holds for ever. */
  ghost predicate Stable<S(!new), A(!new)>(step: (S, A) -> Option<S>, inv: S -> bool, p: S -> bool) {
    forall s, a | inv(s) && p(s) && step(s, a).Some? :: p(step(s, a).value)
  }

  /** A run that ends in last goes on by any step from there. */
  ghost predicate EndsIn<S, A>(run: Run<S, A>, last: S) {
    |run.states| > 0 && run.states[|run.states| - 1] == last
  }

  lemma Extend<S(!new), A(!new)>(
      init: S -> bool, step: (S, A) -> Option<S>, run: Run<S, A>, last: S, a: A, next: S) returns (longer: Run<S, A>)
    requires IsRun(init, step, run) && EndsIn(run, last) && step(last, a) == Some(next)
    ensures IsRun(init, step, longer) && EndsIn(longer, next)
    ensures longer == Run(run.states + [next], run.actions + [a])
  {
    longer := Run(run.states + [next], run.actions + [a]);
    forall i | 0 <= i < |longer.actions|
      ensures step(longer.states[i], longer.actions[i]) == Some(longer.states[i + 1])
    {
      if i < |run.actions| {
        assert step(run.states[i], run.actions[i]) == Some(run.states[i + 1]);
      }
    }
  }

  lemma {:induction false} InvariantHolds<S(!new), A(!new)>(
      init: S -> bool, step: (S, A) -> Option<S>, inv: S -> bool, run: Run<S, A>, i: nat)
    requires IsRun(init, step, run) && Inductive(init, step, inv)
    requires i < |run.states|
    ensures inv(run.states[i])
  {
    if i > 0 {
      InvariantHolds(init, step, inv, run, i - 1);
      assert step(run.states[i - 1], run.actions[i - 1]) == Some(run.states[i - 1 + 1]);
    }
  }

  lemma {:induction false} StableHolds<S(!new), A(!new)>(
      init: S -> bool, step: (S, A) -> Option<S>, inv: S -> bool, p: S -> bool, run: Run<S, A>, i: nat, j: nat)
    requires IsRun(init, step, run) && Inductive(init, step, inv) && Stable(step, inv, p)
    requires i <= j < |run.states| && p(run.states[i])
    ensures p(run.states[j])
    decreases j
  {
    if i < j {
      StableHolds(init, step, inv, p, run, i, j - 1);
      InvariantHolds(init, step, inv, run, j - 1);
      assert step(run.states[j - 1], run.actions[j - 1]) == Some(run.states[j - 1 + 1]);
    }
  }

  /** A number not in use, for a thread, goroutine or session about to be created. */
  lemma FreshNumber(used: set<nat>) returns (n: nat)
    ensures n !in used
  {
    n := 0;
    var rest := used;
    while rest != {}
      invariant rest <= used && forall y | y in used && y !in rest :: y < n
      decreases rest
    {
      var x :| x in rest;
      rest := rest - {x};
      if n <= x {
        n := x + 1;
      }
    }
  }
}
