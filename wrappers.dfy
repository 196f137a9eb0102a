/** Failure-compatible datatypes used in place of Java's null and exceptions. */
module Wrappers {

  /** A nullable reference: `None` stands for Java's null. */
  datatype Option<T> = None | Some(value: T)

  /** The outcome of an operation that may throw: `Failure` carries the exception. */
  datatype Result<T, E> = Success(value: T) | Failure(error: E)
}
