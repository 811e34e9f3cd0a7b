/** Failure-compatible wrappers shared by the parser and the forecast pipeline. */
module Outcomes {

  datatype Option<+T> = None | Some(value: T)

  /** Either a value or the error that ended the computation; usable with `:-`. */
  datatype Result<+T, +E> = Ok(value: T) | Err(error: E) {

    predicate IsFailure() {
      Err?
    }

    function PropagateFailure<U>(): Result<U, E>
      requires Err?
    {
      Err(error)
    }

    function Extract(): T
      requires Ok?
    {
      value
    }
  }
}
