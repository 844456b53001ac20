/** Optional values and success/error results shared by the storefront model. */
module Results {

  /** A value that may be missing, as `Array.prototype.find` returns `undefined`. */
  datatype Option<+T> = None | Some(value: T)

  /** The outcome of an operation that either produces a value or reports why it refused. */
  datatype Result<+T, +E> = Ok(value: T) | Err(error: E)
}
