/** Failure-compatible wrappers: Java's `null` becomes `None`, a thrown
    `IndexException` becomes `Failure`/`Fail`. */
module Wrappers {

  datatype Option<+T> = None | Some(value: T)

  datatype Result<+R, +E> = Success(value: R) | Failure(error: E) {
    predicate IsFailure() { Failure? }

    function PropagateFailure<U>(): Result<U, E>
      requires Failure?
    {
      Failure(error)
    }

    function Extract(): R
      requires Success?
    {
      value
    }
  }

  /** The outcome of a `void` Java method: it returned, or it threw. */
  datatype Outcome<+E> = Pass | Fail(error: E)
}
