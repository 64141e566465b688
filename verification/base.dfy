/** Small failure-carrying datatypes shared by every module of the model. */
module Base {

  /** A value that may be absent: Python's `Optional[T]` / `None`. */
  datatype Option<+T> = None | Some(value: T)

  /** The result of a check that either produces a value or reports an error.
      It supports Dafny's `:-` operator, so a chain of field checks stops at
      the first failing one. */
  datatype Result<+T, +E> = Ok(value: T) | Err(error: E) {

    predicate IsFailure() {
      Err?
    }

    function PropagateFailure<U>(): Result<U, E>
      requires Err?
    {
      Err(error)
    }

    function Extract(): T
      requires Ok?
    {
      value
    }

    /** Applies `f` to an error and keeps a successful value unchanged. */
    function MapError<F>(f: E -> F): Result<T, F>
    {
      match this
      case Ok(v) => Ok(v)
      case Err(e) => Err(f(e))
    }

    /** Applies `f` to a successful value and keeps an error unchanged. */
    function MapValue<U>(f: T -> U): Result<U, E>
    {
      match this
      case Ok(v) => Ok(f(v))
      case Err(e) => Err(e)
    }
  }
}
