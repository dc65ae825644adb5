/** Failure-carrying values for the generators' error paths: where the Rust
    code panics (an `unwrap`, an out-of-range index) the model returns `Err`. */
module Wrappers {

  datatype Option<+T> = None | Some(value: T)

  datatype Result<+T, +E> = Ok(value: T) | Err(error: E)

  /** Success or failure of a step that produces no value (a visitor callback). */
  datatype Outcome<+E> = Pass | Fail(error: E)
}
