/** Failure-carrying values shared by every module of the chat gateway model. */
module Wrappers {

  /** A value that may be absent: an optional JSON field, a stream read without a chunk. */
  datatype Option<+T> = None | Some(value: T)

  /** The outcome of a step that can throw: its value, or the thrown error's message. */
  datatype Result<+T> = Ok(value: T) | Err(message: string)
}
