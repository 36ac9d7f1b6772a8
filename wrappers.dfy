/** A value that may be absent: used for a register write that may not happen
    and for a clock-select code that selects no internal prescaler. */
module Wrappers {

  datatype Option<+T> = None | Some(value: T) {

    /** The carried value, or `default` when there is none. */
    function GetOr(default: T): T {
      match this
      case Some(v) => v
      case None => default
    }
  }
}
