/** Option and Outcome, the two failure-carrying datatypes the model uses. */
module Wrappers {

  /** A value that may be missing: JavaScript's `undefined` / `null` become `None`. */
  datatype Option<+T> = None | Some(value: T) {

    /** Returns the carried value, or `default` when there is none. */
    function GetOr(default: T): T
    {
      match this
      case Some(v) => v
      case None => default
    }
  }

  /** The settled outcome of a call into code outside the model: the value it
      produced, or the `message` of the error it threw. */
  datatype Outcome<+T> = Ok(value: T) | Err(message: string)
}
