/** Failure-compatible results for the pipeline model.

    The Python code signals failure by raising; every exception it can raise
    on the modelled paths becomes one constructor of `Error`, and every
    operation that can raise returns a `Result`.
 */
module Results {

  /** The exceptions the modelled code raises, by Python class. */
  datatype Error =
    | ValueError(message: string)
    | KeyError(key: string)
    | TypeError(message: string)
    | AssertionError
    | OutputParserError(text: string)

  datatype Option<+T> = None | Some(value: T)

  datatype Result<+T> = Ok(value: T) | Err(error: Error) {

    predicate IsFailure() {
      Err?
    }

    function PropagateFailure<U>(): Result<U>
      requires Err?
    {
      Err(error)
    }

    function Extract(): T
      requires Ok?
    {
      value
    }
  }
}
