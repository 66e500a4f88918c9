/** Option and Outcome datatypes used across the model. */
module Wrappers {

  /** A value that may be absent: the model's stand-in for a C# null or an
      unset nullable. */
  datatype Option<+T> = None | Some(value: T)

  /** The outcome of an operation that returns nothing on success and raises
      an error otherwise. */
  datatype Outcome<+E> = Pass | Fail(error: E)
}
