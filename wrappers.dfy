/** Optional values and results with an error branch, used for nullable
    columns, absent keys and the error paths of the views. */
module Wrappers {

  datatype Option<+T> = None | Some(value: T)

  datatype Result<+T, +E> = Ok(value: T) | Err(error: E)
}
