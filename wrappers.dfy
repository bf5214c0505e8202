/** Failure-compatible wrappers shared by the whole model. */
module Wrappers {

  /** A value that may be absent: a request field that is missing or falsy, or a query with no match. */
  datatype Option<+T> = None | Some(value: T)

  /** The outcome of a route handler: the stored record, or the kind of error it answers with. */
  datatype Result<+T, +E> = Ok(value: T) | Err(error: E)
}
