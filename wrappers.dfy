/** Optional values and results with an error, used wherever the plugin
    returns `None` or gives up with `(None, None)`. */
module Wrappers {
  datatype Option<+T> = None | Some(value: T)

  datatype Result<+T, +E> = Ok(value: T) | Err(error: E)
}
