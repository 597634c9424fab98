/** Optional values and results with an error case. */
module Wrappers {

  /** A value that may be absent (pandas' NaN / None / NaT, Python's None). */
  datatype Option<+T> = None | Some(value: T)

  /** The outcome of a computation that the source can abort with an exception. */
  datatype Result<+T, +E> = Ok(value: T) | Err(error: E)
}
