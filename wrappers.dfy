/** Option and Result values shared by the harness and the bootstrap model. */
module Wrappers {

  /** A value that may be absent; `None` also stands for `std::string::npos`. */
  datatype Option<+T> = None | Some(value: T)

  /** The outcome of a step that may end the program with a fatal error (`die`). */
  datatype Result<+T, +E> = Ok(value: T) | Err(error: E)
}
