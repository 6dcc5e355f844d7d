/**
 * Absence of a value. The dashboard reads its data with `?.` and `|| 0`, which
 * treat a missing field (`undefined`) and a JSON `null` alike, so `None`
 * stands for either wherever only those reads touch the value.
 */
module Wrappers {

  datatype Option<+T> = None | Some(value: T) {

    /** The value when present, `default` otherwise. */
    function GetOr(default: T): T {
      match this
      case Some(v) => v
      case None => default
    }
  }
}
