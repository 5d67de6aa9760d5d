/** Optional values and results shared by the modules of this model. */
module Wrappers {

  /** A value that may be missing, as TypeScript's `T | undefined` (or `null`). */
  datatype Option<+T> = None | Some(value: T)

  /** The outcome of an operation that can fail. */
  datatype Result<+R, +E> = Success(value: R) | Failure(error: E)
}
