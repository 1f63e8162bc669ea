/** Failure-carrying return values: Go's `(T, error)` pairs become `Result`. */
module Wrappers {

  datatype Option<+T> = None | Some(value: T)

  /** Either a full success value or an error, never both: a Go call that
      returns `nil, err` on failure is an `Err`, with no partial result. */
  datatype Result<+T, +E> = Ok(value: T) | Err(error: E)
}
