/** Optional values (TypeScript's `T | null` / `T | undefined`) and results
    that carry either a value or an error (a thrown exception or a
    reported validation failure). */
module Wrappers {

  datatype Option<+T> = None | Some(value: T)

  datatype Result<+T, +E> = Success(value: T) | Failure(error: E)
}
