/** The optional value used wherever the C++ code returns std::optional or a nullable pointer. */
module Wrappers {

  datatype Option<+T> = None | Some(value: T) {

    /** The value when present, otherwise the given default (the `x != nullptr ? x : y` idiom). */
    function GetOr(default: T): T {
      match this
      case Some(v) => v
      case None => default
    }
  }
}
