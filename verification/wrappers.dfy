/** Optional values and results, shared by every module of the model. */
module Wrappers {

  /** An optional value: Python's `X | None`. */
  datatype Option<+T> = None | Some(value: T)

  /** A value or the error that replaced it. */
  datatype Result<+R, +E> = Success(value: R) | Failure(error: E)
}
