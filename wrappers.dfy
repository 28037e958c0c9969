/** Optional values and results with an error, used wherever the PHP code
    returns null/false or throws instead of producing a value. */
module Wrappers {

  datatype Option<+T> = None | Some(value: T)

  datatype Result<+R, +E> = Success(value: R) | Failure(error: E)
}
