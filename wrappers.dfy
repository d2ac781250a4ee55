/** Optional values and results, used for the handler's absent inputs and the
    outcome of evaluating an expression that may throw. */
module Wrappers {

  datatype Option<+T> = None | Some(value: T)

  datatype Result<+R, +E> = Success(value: R) | Failure(error: E)
}
