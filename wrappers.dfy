/** Optional values and success-or-failure results. */
module Wrappers {

  /** A value that may be absent: an omitted request field, a lookup that found nothing. */
  datatype Option<T> = None | Some(value: T) {
    /** The value, or `default` when absent (a schema default). */
    function GetOr(default: T): T {
      if Some? then value else default
    }
  }

  /** The outcome of an operation: a success value or a failure kind. */
  datatype Result<T, E> = Ok(value: T) | Err(error: E)
}
