/** Failure-compatible wrappers used to model Python's None and raised exceptions. */
module Wrappers {

  /** A Python value that may be None. */
  datatype Option<+T> = None | Some(value: T)

  /** The outcome of a call that either returns a value or raises. */
  datatype Result<+T, +E> = Success(value: T) | Failure(error: E) {
    predicate IsFailure() { Failure? }

    function PropagateFailure<U>(): Result<U, E>
      requires Failure?
    {
      Failure(error)
    }

    function Extract(): T
      requires Success?
    {
      value
    }
  }

  /** The outcome of a call that returns nothing or raises. */
  datatype Outcome<+E> = Pass | Fail(error: E)
}
