/**
 * The optional value used wherever the source returns None, "" or NaN for
 * "absent", and the outcome of a step that can raise.
 */
module Wrappers {

  datatype Option<+T> = None | Some(value: T) {

    /** The value, or the given default when absent. */
    function GetOr(default: T): T {
      match this
      case Some(v) => v
      case None => default
    }
  }

  /** A value, or the message of the exception that prevented it. */
  datatype Result<+T> = Ok(value: T) | Fail(error: string)
}
