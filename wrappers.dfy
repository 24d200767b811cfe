/** An optional value: a dictionary lookup that may find nothing. */
module Wrappers {

  datatype Option<T> = None | Some(value: T) {
    function GetOr(default: T): (r: T) {
      match this
      case Some(v) => v
      case None => default
    }
  }
}
