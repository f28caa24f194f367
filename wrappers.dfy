/** Option and Result, used wherever the source yields "no value" (undefined, NaN) or throws. */
module Wrappers {
  datatype Option<+T> = None | Some(value: T)

  datatype Result<+T, +E> = Ok(value: T) | Err(error: E)
}
