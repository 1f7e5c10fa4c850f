// Result and option types for the runtime's thrown errors and absent values.
module Wrappers {

  datatype Option<+T> = None | Some(value: T)

  /** A thrown error is an `Err`; `:-` propagates it. */
  datatype Result<+T, +E> = Ok(value: T) | Err(error: E) {
    predicate IsFailure() { Err? }

    function PropagateFailure<U>(): Result<U, E>
      requires Err?
    {
      Err(error)
    }

    function Extract(): T
      requires Ok?
    {
      value
    }
  }
}
