/** Optional values and success-or-error results, used for Python's `None`
    and for exceptions that the modelled code raises or propagates. */
module Wrappers {

  datatype Option<+T> = None | Some(value: T)

  datatype Result<+R, +E> = Success(value: R) | Failure(error: E)
}
