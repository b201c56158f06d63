/** Optional values and success-or-failure results, used for the
    JavaScript `undefined`/`null` cases and for thrown errors. */
module Wrappers {

  datatype Option<+T> = None | Some(value: T)

  datatype Result<+R, +E> = Success(value: R) | Failure(error: E)
}
