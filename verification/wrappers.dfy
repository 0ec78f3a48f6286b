/** Optional values, used for SQL NULL, Python None and JavaScript
    undefined alike, and results that are either a value or an error. */
module Wrappers {

  datatype Option<+T> = None | Some(value: T)

  /** An operation's value, or the error it raised. */
  datatype Result<+T, +E> = Ok(value: T) | Err(error: E)
}
