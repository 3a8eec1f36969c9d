/** Optional values and error-carrying results, as Go expresses them with
    `value, ok` and `value, err` pairs. */
module Wrappers {

  datatype Option<+T> = None | Some(value: T)

  datatype Result<+T, +E> = Ok(value: T) | Err(error: E)
}
