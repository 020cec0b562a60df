/** The optional value used wherever the component reads something that may be
    missing: an unset prop, an index past the end of an array, or a computed
    position that is not a number. */
module Wrappers {

  datatype Option<+T> = None | Some(value: T) {

    /** The value when present, otherwise `default`. */
    function GetOr(default: T): T {
      match this
      case Some(v) => v
      case None => default
    }
  }
}
