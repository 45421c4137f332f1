/** Optional values and results with an error, used for JavaScript's `null`/`undefined`
    and for the `false` and `throw` outcomes of the client. */
module Wrappers {

  datatype Option<+T> = None | Some(value: T)

  datatype Result<+R, +E> = Success(value: R) | Failure(error: E)
}
