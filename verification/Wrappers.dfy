/** Shapes shared by the models: optional values, results, and what a call writes into a field. */
module Wrappers {
  datatype Option<+T> = None | Some(value: T)

  datatype Result<+T, +E> = Ok(value: T) | Err(error: E)

  datatype Write<+T> = Untouched | Sets(value: T)

  /** The field after the write. */
  function Written<T>(w: Write<T>, before: T): T {
    match w
    case Untouched => before
    case Sets(value) => value
  }
}
