/** Optional values and results with an error, used for dict-style lookups and for
    the exception a caller would see. */
module Wrappers {
  datatype Option<+T> = None | Some(value: T)

  datatype Result<+R, +E> = Success(value: R) | Failure(error: E)
}
