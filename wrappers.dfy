/** Failure-carrying results: the model's stand-in for Java's exceptions and nulls. */
module Wrappers {

  /** An optional value (a nullable reference, or an Optional). */
  datatype Option<+T> = None | Some(value: T)

  /** A value, or the error that the source would have thrown instead. */
  datatype Result<+T, +E> = Ok(value: T) | Err(error: E)

  /** A void operation that either completes or throws. */
  datatype Outcome<+E> = Pass | Fail(error: E)
}
