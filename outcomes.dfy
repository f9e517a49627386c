/** Return values for the operations that the original reports by raising
    an exception: an `Ok` value or the error that would have been raised. */
module Outcomes {

  datatype Option<+T> = None | Some(value: T)

  /** What went wrong in a line of a Felo file (the message of a `LineError`). */
  datatype LineProblem =
    | NotAnItem            // a parameter or fencer line that is not "name <TAB> value"
    | NotABout             // a bout line that does not follow the bout syntax
    | PointsAboveWinning   // a fencer has more points than the winning points
    | UnknownFencer(name: string)
    | NoDate               // no date on this line and none on an earlier one

  datatype Error =
    | LineError(problem: LineProblem, line: nat)
    | InvalidForeignRating(name: string)   // `Error` raised by the Fencer constructor
    | InvalidDate                          // `ValueError` raised by datetime.date
    | UnknownParameter(name: string)       // `FeloFormatError`
    | ParameterNotANumber                  // a rating parameter given as text, which the model refuses
    | InvalidFeloRating(name: string)      // `FeloFormatError`
    | NotTwoBoundaries                     // `FeloFormatError` of write_back_fencers
    | BootstrappingError
    | ZeroDivision                         // progress 0/0 with a cycle budget of one
    | UnboundCycleIndex                    // the cycle index read after an empty loop

  datatype Result<+T> = Ok(value: T) | Err(error: Error)
}
