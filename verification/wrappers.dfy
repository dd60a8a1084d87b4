/** Failure-carrying datatypes shared by the model. */
module Wrappers {

  /** A value that may be absent; stands for Go's nil pointers and nil maps. */
  datatype Option<+T> = None | Some(value: T)

  /** A value or an error; stands for Go's `(value, error)` return pairs. */
  datatype Result<+T, +E> = Success(value: T) | Failure(error: E) {

    /** The value on success, `default` on failure (Go's zero value on error). */
    function GetOr(default: T): T {
      match this
      case Success(v) => v
      case Failure(_) => default
    }
  }

  /** The outcome of a call that returns only an `error`. */
  datatype Outcome<+E> = Pass | Fail(error: E)
}
