/** The optional value used where the sources use `null`, `undefined` or a missing match. */
module Wrappers {

  datatype Option<+T> = None | Some(value: T)

  /** A value, or the message of the `Error` the source throws instead. */
  datatype Result<+T> = Ok(value: T) | Err(error: string)
}
