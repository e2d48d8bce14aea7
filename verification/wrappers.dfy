/** Optional values and results with an error, used for lookups that may find
    nothing and for the fetch cycle that may fail. */
module Wrappers {

  datatype Option<+T> = None | Some(value: T)

  datatype Result<+T, +E> = Ok(value: T) | Err(error: E)
}
