/**
 * Small shared vocabulary: optional values and results that carry an error
 * instead of raising it.
 */
module Base {

  /** A value that may be absent (Python's `None`, a null pointer in C). */
  datatype Option<+T> = None | Some(value: T)

  /** The outcome of an operation that either succeeds or reports why not. */
  datatype Result<+T, +E> = Ok(value: T) | Err(error: E)
}
