/** Optional values and results with an error, shared by the other modules. */
module Wrappers {

  /** A value that may be absent: `None` stands for a key missing from a decoded message. */
  datatype Option<+T> = None | Some(value: T)

  /** The result of a step that can fail with an error of type `E`. */
  datatype Result<+T, +E> = Ok(value: T) | Err(error: E)
}
