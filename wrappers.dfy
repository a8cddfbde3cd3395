/** Java's null and its exceptions, in Dafny's terms. */
module Wrappers {

  /** A reference that may be null. */
  datatype Option<+T> = None | Some(value: T) {
    function GetOr(default: T): T {
      match this
      case Some(v) => v
      case None => default
    }
  }

  /** The exceptions the modelled code raises, each with the message it carries. */
  datatype Error =
    | IllegalArgument(message: string)   // java.lang.IllegalArgumentException (and NumberFormatException)
    | Runtime(message: string)           // java.lang.RuntimeException thrown by the services
    | DateTimeParse(text: string)        // java.time.format.DateTimeParseException for the given text

  /** The result of a call that returns a value or throws. */
  datatype Result<+T> = Ok(value: T) | Err(error: Error)

  /** The result of a void call that returns normally or throws. */
  datatype Outcome = Pass | Fail(error: Error)
}
