/** Optional values and success/failure results, used for the model handle that may be
    absent and for every pipeline stage that can raise. */
module Wrappers {

  datatype Option<+T> = None | Some(value: T)

  datatype Result<+T, +E> = Success(value: T) | Failure(error: E)
}
