/** Option and Result: the model's stand-ins for Java's `null` and for thrown exceptions. */
module Wrappers {

  /** A reference that may be `null`. */
  datatype Option<+T> = None | Some(value: T)

  /** A call that either returns a value or throws. */
  datatype Result<+T, +E> = Success(value: T) | Failure(error: E)
}
