/**
 * `Option` for the source's nullable look-ups (`FirstOrDefault`) and
 * `Result` for the exceptions the generator lets escape.
 */
module Wrappers {

  datatype Option<+T> = None | Some(value: T)

  datatype Result<+R, +E> = Success(value: R) | Failure(error: E)
}
