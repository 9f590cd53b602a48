/** Failure-carrying datatypes shared by the whole model: a Python call that
    either returns a value or raises is a `Result`; a call that returns nothing
    or raises is an `Outcome`. */
module Outcomes {

  datatype Option<+T> = None | Some(value: T)

  datatype Result<+T, +E> = Ok(value: T) | Err(error: E)

  datatype Outcome<+E> = Pass | Fail(error: E)
}
