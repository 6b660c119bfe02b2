/** Optional values (Java `null`, JavaScript `undefined`) and results that either carry a
    value or the error an operation raised. */
module Wrappers {

  datatype Option<+T> = None | Some(value: T)

  datatype Result<+R, +E> = Success(value: R) | Failure(error: E)
}
