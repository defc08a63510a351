/** Failure-carrying results shared by the planners and the pose tree. */
module Wrappers {

  datatype Option<+T> = None | Some(value: T)

  /** Either the computed value or the error the source raises instead. */
  datatype Result<+T, +E> = Ok(value: T) | Err(error: E)
}
