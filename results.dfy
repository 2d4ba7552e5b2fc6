/** Failure-carrying return values shared by every module of the model. */
module Results {

  /** A value that may be absent: Go's nil pointer, Python's None. */
  datatype Option<+T> = None | Some(value: T)

  /** A value or the error that replaced it: Go's (value, err) pair, Python's error replies. */
  datatype Result<+T, +E> = Ok(value: T) | Err(error: E)
}
