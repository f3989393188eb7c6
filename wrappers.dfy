/** Option and Result values standing for the source's null references and thrown exceptions. */
module Wrappers {

  /** A value that may be absent: Java's `null`, C++'s `npos` or a failed lookup. */
  datatype Option<+T> = None | Some(value: T)

  /** A lookup that either yields a value or signals an error with its message. */
  datatype Result<+T> = Ok(value: T) | Err(message: string)
}
