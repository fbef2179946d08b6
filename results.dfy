/** Optional values and the outcome of an operation that may raise an error. */
module Results {

  /** A value that may be absent (`undefined` in the application). */
  datatype Option<+T> = None | Some(value: T)

  /** The outcome of an operation that either returns a value or throws an `Error` with a message. */
  datatype Result<+T> = Ok(value: T) | Err(message: string)
}
