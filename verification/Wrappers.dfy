/** The result shapes and the sentinel errors shared by every component. */
module Wrappers {

  datatype Option<+T> = None | Some(value: T)

  datatype Result<+T, +E> = Ok(value: T) | Err(error: E)

  /** The package's sentinel errors; ErrDriver stands for any wrapped driver error. */
  datatype Error =
    | ErrDuplicateJob
    | ErrMissingJobID
    | ErrNoJob
    | ErrJobNotFound
    | ErrLeaseLost
    | ErrJobResolved
    | ErrInvalidLease
    | ErrInvalidWeight
    | ErrInvalidDelay
    | ErrVTimeOverflow
    | ErrEmptyResolution
    | ErrDriver
}
