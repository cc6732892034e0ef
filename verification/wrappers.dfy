/** Option and Result, for the values the source leaves `undefined` and the
    promises it rejects. */
module Wrappers {

  datatype Option<+T> = None | Some(value: T)

  datatype Result<+T, +E> = Ok(value: T) | Err(error: E)
}
