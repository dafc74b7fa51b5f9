/** Optional values and results: Python's `Optional[str]` and the
    "return a value or raise" shape of the service functions. */
module Wrappers {

  datatype Option<+T> = None | Some(value: T)

  datatype Result<+T, +E> = Success(value: T) | Failure(error: E)
}
