/** Failure-carrying values shared by the whole model. */
module Wrappers {

  /** A value that may be absent (a Java reference that may be null, an optional child). */
  datatype Option<+T> = None | Some(value: T)

  /** The value of a computation, or the message of the exception it threw. */
  datatype Result<+T, +E> = Ok(value: T) | Err(error: E)

  /** A call that returns nothing: it completed normally, or it threw `error`. */
  datatype Outcome<+E> = Pass | Fail(error: E)
}
