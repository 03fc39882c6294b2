/** Outcome of one command handler: either a value or the exception that
    ended the handler before it produced one. */
module Results {

  /** The exceptions the modelled handlers can raise on their own. */
  datatype HookError =
    /** `String.Substring` was given a negative or too large start/length. */
    | ArgumentOutOfRange

  datatype Result<+T> = Ok(value: T) | Err(error: HookError) {

    predicate IsFailure() {
      Err?
    }

    function PropagateFailure<U>(): Result<U>
      requires Err?
    {
      Err(error)
    }

    function Extract(): T
      requires Ok?
    {
      value
    }
  }
}
