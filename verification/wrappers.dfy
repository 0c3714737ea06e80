/** The optional-value type used throughout the model: `None` stands for a
    JavaScript `undefined` / missing field or for a library call that threw. */
module Wrappers {

  datatype Option<+T> = None | Some(value: T) {

    /** The value, or `default` when there is none. */
    function GetOr(default: T): T {
      match this
      case Some(v) => v
      case None => default
    }
  }
}
