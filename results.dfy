/** Error values and the optional/result wrappers the model uses for Go's
    `error` returns. A Go `error` is modelled by its message. */
module Results {

  datatype Error = Error(message: string)

  datatype Option<+T> = None | Some(value: T)

  /** A Go `(value, error)` pair where the value is meaningless on error. */
  datatype Result<+T> = Success(value: T) | Failure(error: Error)
}
