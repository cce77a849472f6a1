/** Option, Result and Outcome: the values the model uses where the C# code
    returns null or throws. */
module Wrappers {

  /** A value that may be absent; `None` also stands for a C# null reference. */
  datatype Option<+T> = None | Some(value: T)

  /** The value of an operation, or the exception it throws. */
  datatype Result<+T, +E> = Ok(value: T) | Err(error: E)

  /** The outcome of an operation that returns nothing (a `void` method). */
  datatype Outcome<+E> = Pass | Fail(error: E)
}
