/** Optional values and success-or-error results, used where the source returns
    `undefined`, `NaN` or an early error response. */
module Wrappers {

  datatype Option<+T> = None | Some(value: T)

  datatype Result<+R, +E> = Success(value: R) | Failure(error: E)
}
