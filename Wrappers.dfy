/** Optional values and results with an error message, used where the
    modelled code returns null or throws. */
module Wrappers {

  datatype Option<+T> = None | Some(value: T)

  datatype Result<+T> = Ok(value: T) | Err(msg: string)
}
