/** Option and Result: the absent value (Python `None`, Java `null`) and the
    outcome of an operation that either produces a value or fails. */
module Wrappers {

  datatype Option<+T> = None | Some(value: T)

  datatype Result<+T, +E> = Ok(value: T) | Err(error: E)
}
