/** Failure-carrying values shared by the pipeline modules. */
module Wrappers {

  /** A value that may be absent: SQL NULL, a missing dictionary key, a falsy argument. */
  datatype Option<T> = None | Some(value: T)

  /** The outcome of a step that can raise: its value, or the reason it failed. */
  datatype Result<T> = Success(value: T) | Failure(error: string)
}
