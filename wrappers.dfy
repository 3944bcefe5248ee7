/** Optional values and results, used for features that may be absent and for
    the exceptions of the writer. */
module Wrappers {

  datatype Option<+T> = None | Some(value: T)

  datatype Result<+R, +E> = Success(value: R) | Failure(error: E)
}
