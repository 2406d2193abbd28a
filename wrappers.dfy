/** Optional values (TypeScript's `T | undefined` / `T | null`) and results of
    lookups that can throw. */
module Wrappers {

  datatype Option<+T> = None | Some(value: T)

  datatype Result<+T, +E> = Success(value: T) | Failure(error: E)
}
