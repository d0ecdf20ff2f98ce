/** Option and Result values shared by the modules of the search-tool model. */
module Basics {

  /** Presence or absence of a value (Go's "ok" flag of a type assertion, or a nil pointer). */
  datatype Option<+T> = None | Some(value: T)

  /** Either a value or the error that replaced it (Go's `(T, error)` pair). */
  datatype Result<+T, +E> = Ok(value: T) | Err(error: E)
}
