/** The optional-value datatype used across the model for "pointer or null"
    arguments and for decodings that may fail. */
module Wrappers {

  datatype Option<+T> = None | Some(value: T) {

    /** The carried value, or `default` for an absent one: how a null
        argument is stored as the value 0. */
    function GetOr(default: T): T {
      match this
      case Some(v) => v
      case None => default
    }
  }
}
