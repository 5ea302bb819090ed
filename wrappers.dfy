/**
 * Optional values, for settings a source may or may not supply, and results,
 * for operations of the source that either succeed or throw.
 */
module Wrappers {

  datatype Option<+T> = None | Some(value: T)

  datatype Result<+T, +E> = Ok(value: T) | Err(error: E)
}
