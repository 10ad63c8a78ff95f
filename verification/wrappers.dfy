/** The nullable-value datatype shared by both components: `None` stands
    for the JavaScript `null` a getter returns when it has nothing to report. */
module Wrappers {

  datatype Option<+T> = None | Some(value: T) {

    /** Returns the wrapped value, or `default` when there is none. */
    function GetOr(default: T): T {
      match this
      case Some(v) => v
      case None => default
    }
  }
}
