/** Option and Result, used for the absent values and the raised exceptions of the model. */
module Wrappers {

  datatype Option<+T> = None | Some(value: T)

  /** Ok carries a value; Err carries what a raised exception would have carried. */
  datatype Result<+T, +E> = Ok(value: T) | Err(error: E)
}
