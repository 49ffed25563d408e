/**
 Failure-carrying values shared by every module of the model.

 Go reports failure through a trailing `error` result and absence through
 `nil`; the model spells both out as datatypes so that every error path is
 a value a contract can talk about.
 */
module Outcomes {

  /** A value that may be absent: a nil pointer, a nil error, an unset field. */
  datatype Option<+T> = None | Some(value: T)

  /** A Go `(value, err)` pair in which exactly one side is meaningful. */
  datatype Result<+T, +E> = Success(value: T) | Failure(error: E)
}
