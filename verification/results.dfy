/** Optional values and success/failure outcomes used throughout the model. */
module Results {

  /** A value that may be absent (Python's `None`, or a lookup that found nothing). */
  datatype Option<+T> = None | Some(value: T)

  /** The outcome of a step that may raise: `Err` carries what was raised. */
  datatype Result<+T, +E> = Ok(value: T) | Err(error: E)
}
