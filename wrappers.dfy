/** Optional values and results with an error, used for the driver's
    missing fields and for the configuration errors it raises. */
module Wrappers {

  datatype Option<+T> = None | Some(value: T)

  datatype Result<+R, +E> = Success(value: R) | Failure(error: E)
}
