/** An optional value and the outcome of a handler that may raise. */
module Results {

  datatype Option<+T> = None | Some(value: T)

  /** `Failure` stands for a Python exception escaping the handler. */
  datatype Result<+T, +E> = Success(value: T) | Failure(error: E)
}
