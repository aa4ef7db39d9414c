/** Failure-compatible wrappers shared by the other modules. */
module Wrappers {

  /** A value that may be absent: `undefined` in the source's optional fields. */
  datatype Option<+T> = None | Some(value: T)

  /** The outcome of an operation that may throw: the thrown error's message. */
  datatype Result<+T> = Ok(value: T) | Err(message: string)
}
