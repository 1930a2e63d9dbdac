/** Optional values and results that carry an error, used where the engine
    returns a null pointer, a bool or throws. */
module Wrappers {

  datatype Option<+T> = None | Some(value: T)

  datatype Result<+T, +E> = Success(value: T) | Failure(error: E)
}
