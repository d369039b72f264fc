/** Option and Result: the model's stand-ins for Python's `None` and for raised exceptions. */
module Wrappers {

  datatype Option<+T> = None | Some(value: T)

  /** The kinds of Python exception the modelled code can raise or re-raise. */
  datatype Error =
    | TypeError
    | KeyError(key: string)
    | AttributeError
    | ValueError(reason: string)
    | ZeroDivisionError
    | FileNotFoundError
    | SearchFailed

  datatype Result<+T> = Ok(value: T) | Err(error: Error) {
    predicate IsFailure() { Err? }

    function PropagateFailure<U>(): Result<U>
      requires Err?
    {
      Err(error)
    }

    function Extract(): T
      requires Ok?
    {
      value
    }
  }
}
