/** Nullable values and error-or-value results, used for C#'s `null` and for thrown exceptions. */
module Wrappers {

  /** A C# reference or nullable value: `None` stands for `null`. */
  datatype Option<+T> = None | Some(value: T)

  /** The outcome of an operation that either returns a value or throws. */
  datatype Result<+T, +E> = Ok(value: T) | Err(error: E)
}
