/** The error path shared by every operation of the model: an operation either
    returns its value or the exception the Python code would raise. */
module Results {

  datatype Result<+T, +E> = Ok(value: T) | Err(error: E)

  /** A value that may be absent. */
  datatype Option<+T> = None | Some(value: T)

}
