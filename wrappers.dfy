/** Optional values and results with an error, used for every optional field of a
    provider record and every operation that can throw. */
module Wrappers {

  datatype Option<+T> = None | Some(value: T)

  datatype Result<+T, +E> = Success(value: T) | Failure(error: E)
}
