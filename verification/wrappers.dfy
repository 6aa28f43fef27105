/** Results of operations that can be refused. */
module Wrappers {
  datatype Option<+T> = None | Some(value: T)

  datatype Outcome<+E> = Pass | Fail(error: E)

  datatype Result<+T, +E> = Success(value: T) | Failure(error: E) {
    predicate IsFailure() { Failure? }

    function PropagateFailure<U>(): Result<U, E>
      requires Failure?
    {
      Failure(error)
    }

    function Extract(): T
      requires Success?
    {
      value
    }
  }

  /** A loop that may be refused part way: step from left to right, the first refusal ends it. */
  function Fold<S, T, E>(init: S, xs: seq<T>, step: (S, T) -> Result<S, E>): Result<S, E>
  {
    if xs == [] then Success(init)
    else
      var s :- Fold(init, xs[..|xs| - 1], step);
      step(s, xs[|xs| - 1])
  }

  lemma {:induction false} FoldStep<S, T, E>(init: S, xs: seq<T>, i: nat, step: (S, T) -> Result<S, E>)
    requires i < |xs| && Fold(init, xs[..i], step).Success?
    ensures Fold(init, xs[..i + 1], step) == step(Fold(init, xs[..i], step).value, xs[i])
  {
    assert xs[..i + 1][..i] == xs[..i];
  }

  /** A refusal on a prefix is the refusal of the whole. */
  lemma {:induction false} FoldRefused<S, T, E>(init: S, xs: seq<T>, i: nat, step: (S, T) -> Result<S, E>)
    requires i <= |xs| && Fold(init, xs[..i], step).Failure?
    ensures Fold(init, xs, step) == Fold(init, xs[..i], step)
  {
    if i == |xs| {
      assert xs[..i] == xs;
    } else {
      var ys := xs[..|xs| - 1];
      assert ys[..i] == xs[..i];
      FoldRefused(init, ys, i, step);
    }
  }
}
