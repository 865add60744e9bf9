/** Optional values and success/failure outcomes used throughout the model. */
module Results {

  /** An optional value: JavaScript's `null`/absent versus a present value. */
  datatype Option<+T> = None | Some(value: T)

  /** The outcome of an operation that may throw. */
  datatype Result<+T, +E> = Ok(value: T) | Err(error: E)
}
