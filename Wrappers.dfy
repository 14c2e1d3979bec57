/** Optional values and error-carrying results, used where the source returns
    `None` or raises an exception that a caller turns into a response. */
module Wrappers {

  datatype Option<+T> = None | Some(value: T)

  datatype Result<+R, +E> = Success(value: R) | Failure(error: E)
}
