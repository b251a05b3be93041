/** Option and Result, the failure-carrying values the rest of the model returns
    where the original program raises or yields "nothing". */
module Wrappers {

  datatype Option<+T> = None | Some(value: T)

  datatype Result<+T, +E> = Success(value: T) | Failure(error: E)
}
