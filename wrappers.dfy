/** Failure-compatible wrappers: Java's null becomes `None`, a thrown exception becomes `Err`. */
module Wrappers {

  datatype Option<+T> = None | Some(value: T)

  datatype Result<+R, +E> = Ok(value: R) | Err(error: E) {
    predicate IsFailure() { Err? }

    function PropagateFailure<U>(): Result<U, E>
      requires Err?
    {
      Err(error)
    }

    function Extract(): R
      requires Ok?
    {
      value
    }

    /** Forgets the error, keeping only whether a value was produced and which. */
    function ToOption(): Option<R>
    {
      match this
      case Ok(v) => Some(v)
      case Err(_) => None
    }
  }

  /** The outcome of a check that either passes or throws. */
  datatype Outcome<+E> = Pass | Fail(error: E)
}
