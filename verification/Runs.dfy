// Runs of a state machine given by its step function.
module Runs {
  /** The state after the first n events. */
  ghost function After<S, E>(step: (S, E) -> S, s: S, es: seq<E>, n: nat): S
    requires n <= |es|
  {
    if n == 0 then s else step(After(step, s, es, n - 1), es[n - 1])
  }

  /** What holds at the start and is kept by every step holds throughout every run. */
  lemma {:induction false} Invariant<S(!new), E(!new)>(step: (S, E) -> S, holds: S -> bool, s: S, es: seq<E>, n: nat)
    requires n <= |es| && holds(s)
    requires forall x, e {:trigger step(x, e)} :: holds(x) ==> holds(step(x, e))
    ensures holds(After(step, s, es, n))
  {
    if n > 0 { Invariant(step, holds, s, es, n - 1); }
  }
}
