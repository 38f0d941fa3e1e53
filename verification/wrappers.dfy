/** Failure-carrying datatypes shared by every module of the model.

    Python signals failure by raising; the model returns a `Result` whose
    `Failure` names the exception class the Python code would raise.  A
    NumPy routine that answers `nan` instead of raising is modelled by the
    `NotANumber` fault, so that no real number is ever confused with it.
 */
module Wrappers {

  /** Python's `None` or a value. */
  datatype Option<+T> = None | Some(value: T)

  /** The exception classes (and the `nan` answer) the modelled code can produce. */
  datatype Fault =
    | ValueError
    | TypeError
    | IndexError
    | ZeroDivisionError
    | NotANumber         // NumPy returns nan (or an infinity) instead of raising

  /** A value, or the fault the Python code would raise instead. */
  datatype Result<+T> = Success(value: T) | Failure(error: Fault)
}
