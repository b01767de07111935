/** Small failure-carrying datatypes shared by the other modules. */
module Wrappers {

  /** A value that may be missing: a dictionary key that is absent, a
      field a message does not carry, a side of the book that is empty. */
  datatype Option<+T> = None | Some(value: T)

  /** The outcome of a computation that the source can abandon with an exception. */
  datatype Result<+T> = Ok(value: T) | Err(message: string)
}
