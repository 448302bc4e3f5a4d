/** Optional values and success/failure results, used for JavaScript's
    `undefined` fields and for the callback convention `callback(err, value)`. */
module Wrappers {

  datatype Option<+T> = None | Some(value: T)

  datatype Result<+R, +E> = Success(value: R) | Failure(error: E)
}
