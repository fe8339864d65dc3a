/** Failure-compatible wrappers shared by every module of the model. */
module Wrappers {

  /** A value that may be absent: JavaScript's `undefined`/`null`, a thrown call, a missing key. */
  datatype Option<+T> = None | Some(value: T) {

    /** The wrapped value, or `default` when there is none. */
    function GetOr(default: T): T {
      match this
      case Some(v) => v
      case None => default
    }
  }
}
