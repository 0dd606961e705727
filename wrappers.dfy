/** Failure-carrying values used throughout the model. */
module Wrappers {

  /** A value that may be absent: the module-level `model` is either a classifier or `None`. */
  datatype Option<+T> = None | Some(value: T)

  /** The outcome of a call that may raise: `Err` carries the exception's message. */
  datatype Result<+T> = Ok(value: T) | Err(reason: string)
}
