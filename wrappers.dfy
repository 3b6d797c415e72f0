/** Failure-compatible wrappers used across the model. A `Failure` stands for a
    JavaScript exception, carrying its message. */
module Wrappers {

  datatype Option<+T> = None | Some(value: T)

  datatype Result<+T, +E> = Success(value: T) | Failure(error: E) {
    predicate IsFailure() {
      Failure?
    }

    function PropagateFailure<U>(): Result<U, E>
      requires Failure?
    {
      Failure(error)
    }

    function Extract(): T
      requires Success?
    {
      value
    }
  }

  /** The `{err, file}` pair that every pass reports per problem. */
  datatype Report = Report(err: string, file: string)

  /** A loop that applies `step` to each element in order and stops at the
      first error, which is the loop's result. */
  function Loop<S, X>(step: (S, X) -> Result<S, string>, start: S, xs: seq<X>): Result<S, string> {
    if xs == [] then Success(start)
    else
      var done :- Loop(step, start, xs[..|xs| - 1]);
      step(done, xs[|xs| - 1])
  }

  /** One more element is one more step. */
  lemma LoopStep<S, X>(step: (S, X) -> Result<S, string>, start: S, xs: seq<X>, i: nat)
    requires i < |xs| && Loop(step, start, xs[..i]).Success?
    ensures Loop(step, start, xs[..i + 1]) == step(Loop(step, start, xs[..i]).value, xs[i])
  {
    assert xs[..i + 1][..i] == xs[..i];
  }

  /** A step that fails ends the loop with its error, whatever follows. */
  lemma {:induction false} LoopStops<S, X>(step: (S, X) -> Result<S, string>, start: S, xs: seq<X>, i: nat)
    requires i < |xs| && Loop(step, start, xs[..i]).Success?
    requires step(Loop(step, start, xs[..i]).value, xs[i]).Failure?
    ensures Loop(step, start, xs) == step(Loop(step, start, xs[..i]).value, xs[i])
    decreases |xs| - i
  {
    if i + 1 == |xs| {
      assert xs[..i] == xs[..|xs| - 1];
    } else {
      assert xs[..|xs| - 1][..i] == xs[..i] && xs[..|xs| - 1][i] == xs[i];
      LoopStops(step, start, xs[..|xs| - 1], i);
    }
  }
}
