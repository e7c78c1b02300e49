/** Optional values and results, standing in for Java's null and thrown exceptions. */
module Wrappers {

  /** `None` plays the part of a Java `null` or of a parse that throws. */
  datatype Option<+T> = None | Some(value: T)

  /** `Failure` plays the part of an exception thrown by a Java constructor. */
  datatype Result<+T, +E> = Success(value: T) | Failure(error: E)
}
