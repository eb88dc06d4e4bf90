/** Option and Result, used wherever the program returns an error or finds nothing. */
module Wrappers {

  datatype Option<+T> = None | Some(value: T) {
    function UnwrapOr(default: T): T {
      match this
      case None => default
      case Some(x) => x
    }
  }

  /** The first answer, or the second if there is none. */
  function Or<T>(first: Option<T>, second: Option<T>): Option<T> {
    if first.Some? then first else second
  }

  datatype Result<+T> = Ok(value: T) | Err {
    predicate IsFailure() { Err? }
    function PropagateFailure<U>(): Result<U>
      requires Err?
    {
      Err
    }
    function Extract(): T
      requires Ok?
    {
      value
    }
  }
}
