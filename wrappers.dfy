/** Optional values and results with an error, for the library calls whose
    outcome the model takes as an input. */
module Wrappers {

  datatype Option<+T> = None | Some(value: T)

  datatype Result<+T, +E> = Success(value: T) | Failure(error: E)
}
