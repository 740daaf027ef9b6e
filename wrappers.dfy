/** Small value wrappers shared by every module: an optional value, a value-or-error
    result, and the outcome of a call that may panic. */
module Wrappers {

  datatype Option<+T> = None | Some(value: T)

  /** A Go `(value, error)` pair where exactly one side is meaningful. */
  datatype Result<+T, +E> = Ok(value: T) | Err(error: E)

  /** What a Go call does when it may `panic`: it either returns or panics with a reason. */
  datatype Outcome<+T, +E> = Returned(value: T) | Panicked(reason: E)
}
