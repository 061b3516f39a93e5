/** Option and Result values used for the source's failure paths (a lookup that
    raises, an index out of range, a division by zero). */
module Outcomes {

  datatype Option<+T> = None | Some(value: T)

  /** What made the analysis stop: the exception the source would raise. */
  datatype Failure =
    | LookupFailed(id: int)      // the nuclide-code lookup raised for this id
    | IndexOutOfRange            // a leaderboard list was indexed while empty
    | DivisionByZero             // a candidate had an empty line table
    | NotDecodable               // a name whose last character is not a digit was decoded

  datatype Result<+T> = Ok(value: T) | Err(failure: Failure)
}
