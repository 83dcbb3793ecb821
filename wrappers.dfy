/** Option and Result types shared by the whole model. The errors of `Result` are the
    Python exceptions the modelled code lets escape to its caller. */
module Wrappers {

  datatype Option<+T> = None | Some(value: T) {
    function GetOr(default: T): T {
      match this
      case Some(v) => v
      case None => default
    }
  }

  /** The exceptions of the modelled Python code that are not I/O errors. */
  datatype Error =
    | KeyError(key: string)   // a dictionary lookup of a missing key
    | IndexError              // a list index past the end (a CSV row that is too short)
    | ZeroDivisionError       // a float division by zero

  datatype Result<+T> = Success(value: T) | Failure(error: Error)
}
