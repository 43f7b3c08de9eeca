/** Optional values (Java's nullable references) and results (a value or the exception that was raised). */
module Wrappers {

  /** `None` stands for Java's `null`. */
  datatype Option<+T> = None | Some(value: T)

  /** `Failure` carries the exception that ended an operation. */
  datatype Result<+T, +E> = Success(value: T) | Failure(error: E)
}
