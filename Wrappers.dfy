/** Optional values, for Go's nil pointers and "found" results, and
    results that carry either a value or an error. */
module Wrappers {

  datatype Option<T> = None | Some(value: T)

  datatype Result<T, E> = Ok(value: T) | Err(error: E)
}
