/** The optional value that stands for JavaScript's `undefined` (and `??`). */
module Wrappers {

  datatype Option<+T> = None | Some(value: T) {

    /** Returns the value held, or `default` when there is none (JavaScript's `??`). */
    function GetOr(default: T): T {
      match this
      case Some(v) => v
      case None => default
    }
  }
}
