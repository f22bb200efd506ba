/** Optional values and results with an error, for the `None` defaults and
    the exceptions of the service. */
module Wrappers {
  datatype Option<T> = None | Some(value: T)

  datatype Result<T, E> = Ok(value: T) | Err(error: E)
}
