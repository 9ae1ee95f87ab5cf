/** Optional values and results carrying an error message, shared by every module. */
module Wrappers {
  datatype Option<T> = None | Some(value: T)

  /** A value or the message of the exception raised instead; usable with :- to propagate the exception. */
  datatype Result<T> = Ok(value: T) | Err(msg: string)
  {
    predicate IsFailure() { Err? }

    function PropagateFailure<U>(): Result<U>
      requires Err?
    {
      Err(msg)
    }

    function Extract(): T
      requires Ok?
    {
      value
    }
  }
}
