/** Runs of a step function over a sequence of events, oldest first. */
module Runs {

  function Run<S, E>(step: (S, E) -> S, s: S, es: seq<E>): S {
    if es == [] then s else step(Run(step, s, es[..|es| - 1]), es[|es| - 1])
  }

  lemma {:induction false} Splits<S, E>(step: (S, E) -> S, s: S, es: seq<E>, fs: seq<E>)
    ensures Run(step, s, es + fs) == Run(step, Run(step, s, es), fs)
  {
    if fs == [] {
      assert es + fs == es;
    } else {
      var last := |fs| - 1;
      Splits(step, s, es, fs[..last]);
      assert (es + fs)[..|es| + last] == es + fs[..last];
    }
  }

  lemma Cons<S, E>(step: (S, E) -> S, s: S, e: E, es: seq<E>)
    ensures Run(step, s, [e] + es) == Run(step, step(s, e), es)
  {
    Splits(step, s, [e], es);
    assert [e][..0] == [];
    assert Run(step, s, []) == s;
    assert Run(step, s, [e]) == step(s, e);
  }

  /** What every step keeps, every run keeps. */
  lemma {:induction false} Keeps<S(!new), E(!new)>(step: (S, E) -> S, inv: S -> bool, s: S, es: seq<E>)
    requires inv(s)
    requires forall t, e :: inv(t) ==> inv(step(t, e))
    ensures inv(Run(step, s, es))
  {
    if es != [] {
      Keeps(step, inv, s, es[..|es| - 1]);
    }
  }
}
