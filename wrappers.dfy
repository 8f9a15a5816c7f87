/** Wrappers for a nullable platform handle and for the outcome of a call
    that may throw. */
module Wrappers {

  /** A value that may be absent, as a platform handle that may be null. */
  datatype Option<+T> = None | Some(value: T)

  /** The value of a query that may throw, or the exception's message. */
  datatype Result<+T> = Ok(value: T) | Err(error: string)

  /** Whether a statement completed normally or an exception escaped it. */
  datatype Outcome = Pass | Fail(error: string)
}
