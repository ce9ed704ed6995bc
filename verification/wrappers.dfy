/** Optional values and results with an error, used wherever the source
    returns None, raises, or swallows an exception. */
module Wrappers {

  datatype Option<+T> = None | Some(value: T)

  datatype Result<+R, +E> = Success(value: R) | Failure(error: E)
}
