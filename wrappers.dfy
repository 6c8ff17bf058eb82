/** Optional values and results with an error, used for the absent fields of a
    configuration and for the operations that can fail. */
module Wrappers {

  datatype Option<+T> = None | Some(value: T)

  datatype Result<+T, +E> = Ok(value: T) | Err(error: E)
}
