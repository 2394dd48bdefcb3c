/** Failure-compatible result types shared by the modules of this model. */
module Wrappers {

  /** A value that may be absent (a record lookup that found nothing). */
  datatype Option<+T> = None | Some(value: T)

  /** The outcome of an operation that either succeeds with a value or fails with an error. */
  datatype Result<+T, +E> = Ok(value: T) | Err(error: E)
}
