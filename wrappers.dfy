/** Optional values and exception-carrying results shared by every module.
    `Err(message)` stands for a Python exception that escapes, carrying str(e). */
module Wrappers {
  datatype Option<T> = None | Some(value: T)

  datatype Result<T> = Ok(value: T) | Err(error: string)
}
