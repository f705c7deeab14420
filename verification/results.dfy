/** Failure-carrying results for the economy's request handlers. */
module Results {

  datatype Option<+T> = None | Some(value: T)

  /** A handler either succeeds with a value or fails with a typed error. */
  datatype Result<+T, +E> = Ok(value: T) | Err(error: E)
}
