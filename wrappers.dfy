/** Small failure-carrying datatypes shared by the other modules. */
module Wrappers {

  /** A value that may be absent: the model of a Java reference that may be null. */
  datatype Option<+T> = None | Some(value: T)

  /** A computed value, or the error that a Java method would have thrown instead. */
  datatype Result<+T, +E> = Ok(value: T) | Err(error: E)

  /** A `void` Java method that either returned normally or threw `error`. */
  datatype Outcome<+E> = Pass | Fail(error: E)
}
