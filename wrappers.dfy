/** Failure-compatible Option and Result, and the Ok/error outcome of an operation that returns no value. */
module Wrappers {

  datatype Option<+T> = None | Some(value: T) {
    predicate IsFailure() { None? }

    function PropagateFailure<U>(): Option<U>
      requires None?
    {
      None
    }

    function Extract(): T
      requires Some?
    {
      value
    }

    function GetOr(default: T): T
    {
      if Some? then value else default
    }
  }

  datatype Result<+T, +E> = Success(value: T) | Failure(error: E)

  /** Rust's `Result<(), E>`: `Pass` is `Ok(())`. */
  datatype Outcome<+E> = Pass | Fail(error: E)
}
