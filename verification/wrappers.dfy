/** Failure-compatible wrappers shared by the whole model.

    `Option` stands for Python's "value or None"; `Result` stands for a
    Python call that either returns a value or raises one of the exception
    kinds listed in `Raised`. */
module Wrappers {

  datatype Option<+T> = None | Some(value: T) {
    predicate IsFailure() {
      None?
    }

    function PropagateFailure<U>(): Option<U>
      requires None?
    {
      None
    }

    function Extract(): T
      requires Some?
    {
      value
    }
  }

  /** The Python exceptions the modelled scripts can raise. */
  datatype Raised =
    | AttributeError
    | TypeError
    | KeyError
    | ZeroDivisionError
    | ValidationError
    | ValueError(message: string)
    | RuntimeError(message: string)

  datatype Result<+T> = Ok(value: T) | Err(error: Raised) {
    predicate IsFailure() {
      Err?
    }

    function PropagateFailure<U>(): Result<U>
      requires Err?
    {
      Err(error)
    }

    function Extract(): T
      requires Ok?
    {
      value
    }
  }
}
