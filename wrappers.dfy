/** Python's `None`-or-value and raise-or-return, as datatypes. */
module Wrappers {

  /** An optional value: `None` in the source is `None` here. */
  datatype Option<+T> = None | Some(value: T)

  /** The outcome of a call that either returns a value or raises an exception. */
  datatype Result<+T, +E> = Ok(value: T) | Err(error: E)
}
