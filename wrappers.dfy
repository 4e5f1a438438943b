/** Optional values and handler results shared by the other modules. */
module Wrappers {

  /** A value that may be absent: Python's `Optional[...]` and `None`. */
  datatype Option<+T> = None | Some(value: T)

  /** The outcome of a request handler: a response, or the error the client receives. */
  datatype Result<+T, +E> = Ok(value: T) | Err(error: E)
}
