/** Optional values and results with an error, the shapes Go writes as a nil-able
    pointer and as a `(value, error)` pair. */
module Wrappers {

  datatype Option<+T> = None | Some(value: T)

  datatype Result<+R, +E> = Success(value: R) | Failure(error: E)
}
