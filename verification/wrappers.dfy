/** Option, the error kinds the translation can raise, and a Result that carries them. */
module Wrappers {

  datatype Option<+T> = None | Some(value: T) {

    /** The value, or `default` when there is none (Python's `dict.get(key, default)`). */
    function GetOr(default: T): T {
      match this
      case Some(v) => v
      case None => default
    }
  }

  /**
   * Why a translation step failed. Each kind stands for the Python exception
   * that the code would raise at that point:
   *   MissingKey    - KeyError on `d[key]`;
   *   WrongType     - TypeError or AttributeError (subscripting, popping or
   *                   iterating a value of the wrong kind);
   *   InvalidRequest - the request model refused the translated request;
   *   BackendFailed - the backend call raised.
   */
  datatype Error =
    | MissingKey(key: string)
    | WrongType(context: string)
    | InvalidRequest
    | BackendFailed

  datatype Result<+T> = Ok(value: T) | Err(error: Error) {

    predicate IsFailure() {
      Err?
    }

    function PropagateFailure<U>(): Result<U>
      requires Err?
    {
      Err(error)
    }

    function Extract(): T
      requires Ok?
    {
      value
    }
  }
}
