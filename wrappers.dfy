/** Optional values and results, for nullable columns and for handlers that can fail. */
module Wrappers {

  /** A value that may be absent, like Python's None. */
  datatype Option<+T> = None | Some(value: T)

  /** Either a value or the reason there is none. */
  datatype Result<+R, +E> = Ok(value: R) | Err(error: E)
}
