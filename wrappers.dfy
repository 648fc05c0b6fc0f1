// Option and Result wrappers shared by every module.  Go's `error` values are
// modelled as their message text: `Option<string>` is "error or nil", and a
// `(T, error)` pair is a `Result<T>`.
module Wrappers {

  datatype Option<T> = None | Some(value: T)

  /** The text of an error the operating system or a library reports: it
    * is never empty. */
  type ErrText = s: string | s != "" witness "error"

  datatype Result<T> = Ok(value: T) | Err(msg: string)
  {
    predicate IsFailure() { Err? }

    function PropagateFailure<U>(): Result<U>
      requires Err?
    {
      Err(msg)
    }

    function Extract(): T
      requires Ok?
    {
      value
    }
  }
}
