/** Option, Result and Outcome: the values that stand in for Python's
    None, return-or-raise and raise-or-return-nothing. */
module Outcomes {

  datatype Option<+T> = None | Some(value: T)

  /** A call that either returns a value or raises an error. */
  datatype Result<+T, +E> = Ok(value: T) | Err(error: E)

  /** A call that either returns nothing or raises an error. */
  datatype Outcome<+E> = Pass | Fail(error: E)
}
