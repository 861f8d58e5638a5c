/** Failure-carrying results. Errors of the interpreter are the message strings it raises. */
module Wrappers {

  datatype Option<+T> = None | Some(value: T)

  /** A value, or the message of the error that was raised instead. */
  datatype Result<+T> = Ok(value: T) | Err(error: string)

  /** An operation that either succeeds or raises an error message. */
  datatype Outcome = Pass | Fail(error: string)
}
