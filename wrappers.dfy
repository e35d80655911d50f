/** Optional values and error-carrying results. */
module Wrappers {

  /** `None` stands for a missing, `null` or `NaN` value. */
  datatype Option<+T> = None | Some(value: T)

  datatype Result<+T, +E> = Ok(value: T) | Err(error: E)
}
