/** Optional values and discriminated results, as returned by store lookups and route handlers. */
module Wrappers {

  /** A value that may be absent: what a store lookup by key returns. */
  datatype Option<+T> = None | Some(value: T)

  /** The outcome of a route handler: a response body, or an error response. */
  datatype Result<+T, +E> = Ok(value: T) | Err(error: E)
}
