/** Optional values (Java's null) and the outcome of an operation that may
    raise an exception. */
module Results {

  /** None stands for Java's null. */
  datatype Option<+T> = None | Some(value: T)

  /** Success carries the value returned; Failure the exception raised. */
  datatype Result<+T, +E> = Success(value: T) | Failure(error: E)

  /** The outcome of an operation that returns nothing (Java's void). */
  datatype Outcome<+E> = Pass | Fail(error: E)
}
