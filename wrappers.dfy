/** An optional value, for a slot that may be empty (a record file that may be absent,
    a bike that has not been chosen yet). */
module Wrappers {

  datatype Option<+T> = None | Some(value: T) {

    /** The value held, or `default` when there is none. */
    function GetOr(default: T): T {
      match this
      case Some(v) => v
      case None => default
    }
  }
}
