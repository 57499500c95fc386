/** Optional values: the model's stand-in for Swift optionals and for the
    optional methods of the layout's delegate protocol. */
module Wrappers {

  datatype Option<+T> = None | Some(value: T) {

    /** The wrapped value, or `default` when there is none (Swift's `??`). */
    function GetOr(default: T): T {
      match this
      case Some(v) => v
      case None => default
    }
  }

  /** A delegate veto hook answers `Some(false)` to refuse; an unimplemented
      hook (`None`) and `Some(true)` both allow, because the layout only
      tests `answer == false`. */
  predicate Allows(answer: Option<bool>) {
    answer != Some(false)
  }
}
