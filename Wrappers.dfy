/** Option and Result, standing in for Java's nullable references and thrown exceptions. */
module Wrappers {

  /** `None` is Java's `null`. */
  datatype Option<+T> = None | Some(value: T)

  /** `Err` carries the exception a Java call would have thrown. */
  datatype Result<+T, +E> = Ok(value: T) | Err(error: E)
}
