/** Outcomes of computations that may be absent or may fail. */
module Results {

  /** A value that may be missing, such as an optional member of a JSON object. */
  datatype Option<+T> = None | Some(value: T)

  /** Either a value or the error that was raised instead of producing one. */
  datatype Result<+T, +E> = Success(value: T) | Failure(error: E)
}
