/** Optional values and success-or-failure results, standing in for
    TypeScript's `T | null` / `T | undefined` and for thrown errors. */
module Wrappers {
  datatype Option<+T> = None | Some(value: T)

  datatype Result<+T, +E> = Ok(value: T) | Err(error: E)
}
