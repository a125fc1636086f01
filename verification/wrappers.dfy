/** Optional values and results with an error, used for Python's `None` and
    for the exceptions the encoder layer raises. */
module Wrappers {

  datatype Option<+T> = None | Some(value: T)

  datatype Result<+T, +E> = Ok(value: T) | Err(error: E)
}
