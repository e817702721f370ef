/** Optional values and results with a message on failure. */
module Wrappers {

  /** A value that may be absent: JSON `null` or a missing key. */
  datatype Option<+T> = None | Some(value: T)

  /** The outcome of a step that may throw: `Err` carries the error's message. */
  datatype Result<+T> = Ok(value: T) | Err(error: string)
}
