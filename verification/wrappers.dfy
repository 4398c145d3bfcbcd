/** Optional values and results with an error, shared by the other modules. */
module Wrappers {

  /** A value that may be absent: a JSON key that is not there, a query
      parameter that `URLSearchParams.get` reports as `null`. */
  datatype Option<+T> = None | Some(value: T) {
    function GetOr(default: T): T {
      match this
      case Some(v) => v
      case None => default
    }
  }

  /** The outcome of a service call: a value, or the exception it throws. */
  datatype Result<+R, +E> = Ok(value: R) | Err(error: E)
}
