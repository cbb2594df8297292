/** The optional-value datatype shared by the modules of this project. */
module Wrappers {

  datatype Option<+T> = None | Some(value: T) {

    /** The contained value, or `default` when there is none. */
    function GetOr(default: T): T {
      match this
      case Some(v) => v
      case None => default
    }

    /** The contained value as a one-element sequence, or the empty one. */
    function ToSeq(): (s: seq<T>)
      ensures |s| <= 1
      ensures Some? ==> s == [value]
    {
      match this
      case Some(v) => [v]
      case None => []
    }
  }
}
