/** The optional value used wherever the popup reads something that may be
    absent: a map lookup, `Array.prototype.find`, a form number that is not
    finite, a screen width the host does not report. */
module Wrappers {

  datatype Option<+T> = None | Some(value: T) {

    /** The value, or `default` when there is none (JavaScript's `??`). */
    function GetOr(default: T): T {
      match this
      case Some(v) => v
      case None => default
    }
  }
}
