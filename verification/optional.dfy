/** Small failure-carrying wrappers shared by the other modules. */
module Optional {

  /** A value that may be absent (the source's `null` / `None`). */
  datatype Option<+T> = None | Some(value: T)

  /** A value or the error that stopped its computation (an exception in the source). */
  datatype Result<+T, +E> = Success(value: T) | Failure(error: E)
}
