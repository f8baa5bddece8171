/** Failure-compatible result types shared by the stream modules. */
module Wrappers {

  /** An absent or present value; PHP's `null` return becomes None. */
  datatype Option<+T> = None | Some(value: T)

  /** A value or the exception that was thrown instead. */
  datatype Result<+T, +E> = Ok(value: T) | Err(error: E)

  /** A `void` operation that either completes or throws. */
  datatype Outcome<+E> = Pass | Fail(error: E)
}
