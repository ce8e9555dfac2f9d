/** Failure-compatible wrappers used across the model: `Option` stands for a
    TypeScript `T | null` (or an optional property), `Result` for a promise
    that either resolves with a value or rejects with an error message. */
module Wrappers {

  datatype Option<+T> = None | Some(value: T)

  datatype Result<+T> = Success(value: T) | Failure(error: string)
}
