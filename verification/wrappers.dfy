/** Failure-compatible wrappers shared by the whole model: `Option` for the
    optional struct fields and `Result` for every decoder. */
module Wrappers {

  /** An optional value; the model's counterpart of Rust's `Option<T>`. */
  datatype Option<+T> = None | Some(value: T)

  /** The outcome of a decoder: a value, or an error explaining the failure.
      Usable with `:-`. */
  datatype Result<+T, +E> = Ok(value: T) | Err(error: E) {

    predicate IsFailure() {
      Err?
    }

    function PropagateFailure<U>(): Result<U, E>
      requires Err?
    {
      Err(error)
    }

    function Extract(): T
      requires Ok?
    {
      value
    }
  }
}
