/** Option and Result: the model's stand-ins for a nullable reference and for
    a call that either returns a value or throws. */
module Wrappers {

  /** A value that may be absent, as a nullable reference may be null. */
  datatype Option<+T> = None | Some(value: T)

  /** The outcome of a call that either returns `value` or fails with `error`. */
  datatype Result<+R, +E> = Success(value: R) | Failure(error: E)
}
