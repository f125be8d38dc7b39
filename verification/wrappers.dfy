/** Optional values and success/failure results used across the model. */
module Wrappers {

  /** A value that may be absent: TypeScript's `T | undefined`, Python's `Optional[T]`. */
  datatype Option<+T> = None | Some(value: T)

  /** Either the value a handler returns or the error it raises. */
  datatype Result<+R, +E> = Success(value: R) | Failure(error: E)
}
