/** Option and Result, the two wrappers the model uses for "unset" parameters
    and for a catalogue compilation that can fail. */
module Wrappers {

  /** An optional value: `None` is "not supplied", which is not the same as
      any supplied value (an empty string included). */
  datatype Option<+T> = None | Some(value: T) {

    /** The supplied value, or `default` when none was supplied. */
    function GetOr(default: T): T {
      match this
      case Some(v) => v
      case None => default
    }
  }

  /** Either a value or an error. */
  datatype Result<+R, +E> = Ok(value: R) | Err(error: E)
}
