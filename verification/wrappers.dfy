/** Optional values and success/failure results shared by every module of the model. */
module Wrappers {

  /** A value that may be missing: a nullable column, a failed foreign-key lookup. */
  datatype Option<+T> = None | Some(value: T)

  /** The outcome of a validation step: the accepted value or an error message. */
  datatype Result<+R, +E> = Success(value: R) | Failure(error: E)
}
