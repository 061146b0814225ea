/** Failure-carrying results used by the model in place of the source's exceptions and nullable returns. */
module Outcomes {

  /** A value that may be absent (a Kotlin `T?` return). */
  datatype Option<+T> = None | Some(value: T)

  /** Either a value or the error the source would have thrown. */
  datatype Result<+T, +E> = Ok(value: T) | Err(error: E)
}
