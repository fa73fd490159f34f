/** Failure-carrying values shared by the page models. */
module Wrappers {

  /** A value that may be absent: JavaScript's `null`/`undefined`, or a host call that failed. */
  datatype Option<+T> = None | Some(value: T) {

    /** The value, or `default` when absent (the `a || b` idiom for a value that is never falsy). */
    function GetOr(default: T): T
    {
      match this
      case Some(v) => v
      case None => default
    }
  }

  /** A promise that resolved with a value or was rejected with an error. */
  datatype Result<+T, +E> = Ok(value: T) | Err(error: E)

  /** A host API call (`wx.*`) that reported failure through its `fail` callback. */
  datatype HostFailure = HostFailure
}
