/** Optional values and results with an error message, standing for Python's
    `None` returns and raised exceptions. */
module Wrappers {

  datatype Option<T> = None | Some(value: T)

  datatype Result<T> = Ok(value: T) | Err(error: string)
}
