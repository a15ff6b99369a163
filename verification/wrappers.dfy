/** Failure-carrying values shared by the whole model. */
module Wrappers {

  /** A JavaScript value that may be `undefined`. */
  datatype Option<+T> = None | Some(value: T)

  /** The answer of an external service call: a value, or an opaque fault. */
  datatype Result<+T> = Ok(value: T) | Err
}
