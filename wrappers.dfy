/** Optional values and results with an error, as used throughout the model. */
module Wrappers {

  datatype Option<+T> = None | Some(value: T)

  /** A value or the error that prevented computing it (Go's `(value, error)` pair). */
  datatype Result<+T, +E> = Success(value: T) | Failure(error: E) {

    /** The value, or the given zero value on failure. */
    function GetOr(zero: T): T {
      match this
      case Success(v) => v
      case Failure(_) => zero
    }

    /** The error as Go returns it: `nil` (None) on success. */
    function ErrorOption(): Option<E> {
      match this
      case Success(_) => None
      case Failure(e) => Some(e)
    }

    /** What a failing call appends to an error log: nothing, or its one error. */
    function Logged(): seq<E> {
      match this
      case Success(_) => []
      case Failure(e) => [e]
    }
  }
}
