/** The optional-value type used for regular-expression results: `None` plays
    the part of JavaScript's `null` (no match) and of `undefined` (a capture
    group that did not take part in the match). */
module Options {

  datatype Option<+T> = None | Some(value: T) {

    /** Returns the wrapped value, or `default` when there is none. */
    function GetOr(default: T): T {
      match this
      case Some(v) => v
      case None => default
    }
  }
}
