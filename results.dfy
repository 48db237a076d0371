/** Failure-carrying results for the configuration calls that can go wrong. */
module Results {

  /** A value, or the error that took its place. */
  datatype Result<+T, +E> = Ok(value: T) | Err(error: E)

  /** Success with nothing to return, or an error. */
  datatype Outcome<+E> = Pass | Fail(error: E)
}
