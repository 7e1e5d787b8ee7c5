/** The optional value used throughout the model: a Python `None`, a JavaScript
    `null`/`undefined`, or a key that is absent from a record. */
module Wrappers {

  datatype Option<+T> = None | Some(value: T) {

    /** The carried value, or `default` when there is none. */
    function GetOr(default: T): T {
      match this
      case Some(v) => v
      case None => default
    }
  }
}
