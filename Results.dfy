/** Optional values and the outcome of an operation that can raise. */
module Results {

  datatype Option<T> = None | Some(value: T)

  /** `Err` carries the message of the exception the source raises. */
  datatype Result<T, E> = Ok(value: T) | Err(error: E)
}
