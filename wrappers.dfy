/** Small shared datatypes. */
module Wrappers {

  /** A value that may be absent; stands for a .NET reference that may be null. */
  datatype Option<+T> = None | Some(value: T) {

    /** The held value, or `default` when there is none (the `x ?? default` idiom). */
    function GetOr(default: T): (v: T) {
      match this
      case Some(v) => v
      case None => default
    }
  }
}
