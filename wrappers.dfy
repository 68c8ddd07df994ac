/** Option and Result, used for values that may be missing (a dictionary
    lookup with a default of None) and for operations that can fail. */
module Wrappers {

  datatype Option<+T> = None | Some(value: T)

  datatype Result<+R, +E> = Success(value: R) | Failure(error: E)
}
