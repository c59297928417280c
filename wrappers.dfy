/** Option and Result, standing in for Java's nullable references and thrown exceptions. */
module Wrappers {

  /** A Java reference that may be null. */
  datatype Option<+T> = None | Some(value: T)

  /** A computation that either returns a value or throws. */
  datatype Result<+T, +E> = Success(value: T) | Failure(error: E)
}
