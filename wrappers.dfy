/** The two failure-carrying wrappers used throughout the model. */
module Wrappers {

  /** A value that may be absent: a JavaScript `undefined` or `null` becomes `None`. */
  datatype Option<+T> = None | Some(value: T)

  /** The result of an operation that can throw: `Err` carries what was thrown. */
  datatype Result<+T, +E> = Ok(value: T) | Err(error: E)
}
