/** The optional value used for a key that may be missing from an event
    dictionary (Python's `dict.get` without a default). */
module Wrappers {

  datatype Option<+T> = None | Some(value: T) {

    /** `d.get(key, default)`: the value when the key is present, else the default. */
    function GetOr(default: T): T {
      match this
      case Some(v) => v
      case None => default
    }
  }
}
