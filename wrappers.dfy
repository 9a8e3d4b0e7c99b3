/** Small failure-carrying datatypes shared by the model. */
module Wrappers {

  /** A value that may be missing, as a key absent from a Python dictionary. */
  datatype Option<+T> = None | Some(value: T) {

    /** The value, or `default` when it is missing (Python's `dict.get(key, default)`). */
    function GetOr(default: T): (v: T) {
      match this
      case Some(v) => v
      case None => default
    }
  }

  /** Success without a value, or a failure carrying an error message. */
  datatype Outcome<+E> = Pass | Fail(error: E)
}
