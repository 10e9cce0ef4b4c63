/** Failure-compatible wrappers used for the builder's exceptions. */
module Wrappers {

  /** A value that may be absent (a Java reference that may be unset). */
  datatype Option<+T> = None | Some(value: T)

  /** Either a value or the exception that aborted its computation. */
  datatype Result<+T, +E> = Ok(value: T) | Err(error: E) {
    predicate IsFailure() {
      Err?
    }

    function PropagateFailure<U>(): Result<U, E>
      requires Err?
    {
      Err(error)
    }

    function Extract(): T
      requires Ok?
    {
      value
    }
  }

  /** The outcome of a check that returns normally or throws; under `:-` it propagates as a Result. */
  datatype Outcome<+E> = Pass | Fail(error: E) {
    predicate IsFailure() {
      Fail?
    }

    function PropagateFailure<U>(): Result<U, E>
      requires Fail?
    {
      Err(error)
    }
  }
}
