/** Option and Result values, used where the Swift code has optionals and `Result<Success, Failure>`. */
module Results {

  /** Swift's `T?`. */
  datatype Option<+T> = None | Some(value: T)

  /** Swift's `Result<R, E>`, as passed to a completion handler. */
  datatype Result<+R, +E> = Success(value: R) | Failure(error: E)
}
