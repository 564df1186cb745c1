/**
 * Failure-compatible wrappers for the ways the script can stop with a
 * Python exception. A function returning `Result` either yields a value or
 * names the exception the script would raise at that point.
 */
module Outcome {

  /** The exceptions the modelled code can raise. */
  datatype Error =
    | NotAnInteger      // ValueError from int() on a string that is not a numeral
    | MissingField      // IndexError from indexing the list split(':') returns
    | NoTimeControl     // NameError: a game line before any [TimeControl ...] tag
    | NoDate            // TypeError: prevmonth or nextmonth given None, in a month change from
                        // or to the date of games read before any [UTCDate ...] tag (the first
                        // game opens its bucket under None without error)
    | EmptySeries       // IndexError from y[-1] when no game was seen

  datatype Option<+T> = None | Some(value: T)

  datatype Result<+T> = Ok(value: T) | Err(error: Error) {
    predicate IsFailure() {
      Err?
    }

    function PropagateFailure<U>(): Result<U>
      requires Err?
    {
      Err(error)
    }

    function Extract(): T
      requires Ok?
    {
      value
    }
  }
}
