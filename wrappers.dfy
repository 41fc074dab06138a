/** The optional-value datatype used throughout the model. */
module Wrappers {

  /** A value that may be absent: `undefined`/`null` in the JavaScript source. */
  datatype Option<+T> = None | Some(value: T) {

    /** The wrapped value, or `default` when there is none. */
    function GetOr(default: T): T {
      match this
      case Some(v) => v
      case None => default
    }
  }
}
