/** The optional-value datatype shared by the other modules. */
module Wrappers {

  datatype Option<+T> = None | Some(value: T) {

    /** The carried value, or `default` when there is none */
    function GetOr(default: T): T {
      match this
      case Some(v) => v
      case None => default
    }
  }
}
