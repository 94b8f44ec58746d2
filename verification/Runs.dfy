/** Runs of a state machine: a step function applied along a sequence of actions. */
module Runs {
  function Run<S, A>(step: (S, A) -> S, s: S, actions: seq<A>): S {
    if actions == [] then s
    else step(Run(step, s, actions[..|actions| - 1]), actions[|actions| - 1])
  }

  lemma RunGrows<S, A>(step: (S, A) -> S, s: S, actions: seq<A>, a: A)
    ensures Run(step, s, actions + [a]) == step(Run(step, s, actions), a)
  {
    assert (actions + [a])[..|actions|] == actions;
  }

  lemma {:induction false} RunConcat<S, A>(step: (S, A) -> S, s: S, first: seq<A>, second: seq<A>)
    ensures Run(step, s, first + second) == Run(step, Run(step, s, first), second)
    decreases |second|
  {
    if second == [] {
      assert first + second == first;
    } else {
      var n := |second| - 1;
      RunConcat(step, s, first, second[..n]);
      assert first + second == (first + second[..n]) + [second[n]];
      RunGrows(step, s, first + second[..n], second[n]);
    }
  }

  lemma RunOne<S, A>(step: (S, A) -> S, s: S, a: A)
    ensures Run(step, s, [a]) == step(s, a)
  {
    assert [a][..0] == [];
  }
}
