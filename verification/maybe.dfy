/** Optional values and results with an error, usable with `:-`. */
module Maybe {

  /** A value that may be absent: `undefined` or `null` in the JavaScript source. */
  datatype Option<+T> = None | Some(value: T)

  /** Either a value or the error that a rejected promise carries. */
  datatype Result<+T, +E> = Ok(value: T) | Err(error: E) {

    predicate IsFailure() {
      Err?
    }

    function PropagateFailure<U>(): Result<U, E>
      requires Err?
    {
      Err(error)
    }

    function Extract(): T
      requires Ok?
    {
      value
    }
  }
}
