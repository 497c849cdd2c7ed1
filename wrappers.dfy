/** Option and Result, the two failure-carrying types the Rust source uses. */
module Wrappers {

  datatype Option<+T> = None | Some(value: T)

  /** Rust's `Result`; `IsFailure`, `PropagateFailure` and `Extract` make `:-` behave like `?`. */
  datatype Result<+T, +E> = Ok(value: T) | Err(error: E) {

    predicate IsFailure() {
      Err?
    }

    function PropagateFailure<U>(): Result<U, E>
      requires Err?
    {
      Err(error)
    }

    function Extract(): T
      requires Ok?
    {
      value
    }
  }
}
