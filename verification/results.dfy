/** The exceptions of the notifier as plain values, and the result types that carry
    either a value or the exception raised in its place.

    The notifier only ever raises three kinds of Python exception, and the main loop
    treats them all alike (it catches `Exception`), so a flat tag is enough:
    - TypeErr    : `TypeError`, a value of the wrong shape;
    - KeyErr     : `KeyError`, a missing key or an unknown status;
    - GenericErr : any other `Exception`: the bare ones raised for missing tokens and
                   failed deliveries, and the bot library's rejection of a token.
 */
module Results {

  datatype Error = TypeErr | KeyErr | GenericErr

  datatype Option<+T> = None | Some(value: T)

  /** Either a value or the exception that was raised instead. */
  datatype Result<+T> = Ok(value: T) | Err(error: Error) {

    predicate IsFailure() {
      Err?
    }

    function PropagateFailure<U>(): Result<U>
      requires Err?
    {
      Err(error)
    }

    function Extract(): T
      requires Ok?
    {
      value
    }
  }

  /** The result of a check that returns nothing useful when it passes. */
  datatype Outcome = Pass | Fail(error: Error)
}
