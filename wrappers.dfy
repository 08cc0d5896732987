/** Plain optional and result datatypes shared by the model. */
module Wrappers {

  /** A value that may be absent. */
  datatype Option<+T> = None | Some(value: T)

  /** The outcome of a request handler: a value or an error. */
  datatype Result<+T, +E> = Ok(value: T) | Err(error: E)
}
