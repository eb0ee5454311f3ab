/** Optional values and results that carry an error, shared by every other module. */
module Common {

  datatype Option<+T> = None | Some(value: T)

  datatype Result<+T, +E> = Ok(value: T) | Err(error: E)

  /** The reply of an operation that has nothing to return. */
  datatype Unit = Unit
}
