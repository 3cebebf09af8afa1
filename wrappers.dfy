/** Optional values (TypeScript's `T | undefined`) and results with an error case. */
module Wrappers {

  datatype Option<+T> = None | Some(value: T)

  datatype Result<+T, +E> = Ok(value: T) | Err(error: E)
}
