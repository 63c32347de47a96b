/** Failure-carrying values used for the service's rejected promises. */
module Wrappers {

  /** A value that may be absent (JavaScript `null`). */
  datatype Option<+T> = None | Some(value: T)

  /** The settled state of a promise that yields a value: fulfilled or rejected. */
  datatype Result<+R, +E> = Success(value: R) | Failure(error: E)

  /** The settled state of a promise that yields no value. */
  datatype Outcome<+E> = Pass | Fail(error: E)
}
