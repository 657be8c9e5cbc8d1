/** Optional values, the exceptions the scoring code can raise, and a result
    type that carries either a value or the exception that aborted the call. */
module Wrappers {

  /** Python's `None` or a value. */
  datatype Option<+T> = None | Some(value: T)

  /** The Python exceptions the modelled code lets escape to its caller. */
  datatype Fault =
    | ValueError(reason: string)
    | KeyError(key: string)
    | TypeError(reason: string)
    | IndexError(reason: string)

  /** A value, or the exception raised while computing it. */
  datatype Result<+T> = Ok(value: T) | Err(error: Fault) {

    predicate IsFailure() {
      Err?
    }

    function PropagateFailure<U>(): Result<U>
      requires Err?
    {
      Err(error)
    }

    function Extract(): T
      requires Ok?
    {
      value
    }
  }
}
