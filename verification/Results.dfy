/** Failure-carrying values used across the model in place of Go's error returns. */
module Results {

  datatype Option<+T> = None | Some(value: T)

  /** A Go pair (value, error): exactly one of the two is meaningful. */
  datatype Result<+T> = Ok(value: T) | Err(error: string)
}
