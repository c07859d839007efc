/** Option and Outcome, standing for Rust's `Option<T>` (cell contents, the winner
    query) and `Result<(), E>` (the result of a turn).
 */
module Wrappers {

  /** Rust's `Option<T>`. */
  datatype Option<+T> = None | Some(value: T)

  /** Rust's `Result<(), E>`: success carries nothing, failure carries an error. */
  datatype Outcome<+E> = Pass | Fail(error: E)
}
