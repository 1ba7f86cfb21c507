/** Optional values and error-carrying results, used for the source's
    `undefined` returns and for the exceptions that `perform` re-raises. */
module Wrappers {

  datatype Option<+T> = None | Some(value: T)

  datatype Result<+T, +E> = Ok(value: T) | Err(error: E)
}
