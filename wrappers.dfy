/** Optional values and success-or-failure results, for the places where the
    handlers receive `None` or raise an exception. */
module Wrappers {

  datatype Option<+T> = None | Some(value: T)

  datatype Result<+R, +E> = Success(value: R) | Failure(error: E)
}
