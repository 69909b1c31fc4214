/**
 * The optional value used wherever the source returns `None` or a value, and
 * the outcome of a step that may raise a Python exception.
 */
module Wrappers {

  datatype Option<+T> = None | Some(value: T) {

    /** The held value, or `default` when there is none. */
    function GetOr(default: T): T {
      match this
      case Some(v) => v
      case None => default
    }
  }

  /** A value, or the message of the exception raised instead (`str(e)`). */
  datatype Result<+T> = Ok(value: T) | Err(error: string)
}
