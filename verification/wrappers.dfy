/** Optional values and error-carrying results shared by every module. */
module Wrappers {

  datatype Option<+T> = None | Some(value: T)

  /** Either a computed value or the reason the computation was refused. */
  datatype Result<+T, +E> = Success(value: T) | Failure(error: E)
}
