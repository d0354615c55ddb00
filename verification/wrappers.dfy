/** Optional values and results with an error, as the rest of the model uses them. */
module Wrappers {

  /** A value that may be absent; stands for TypeScript's `T | undefined`. */
  datatype Option<+T> = None | Some(value: T)

  /** A value or the error a JavaScript built-in throws instead of returning one. */
  datatype Result<+R, +E> = Success(value: R) | Failure(error: E)
}
