/** The optional value shared by both halves of the model: Python's `None`
    and an absent query parameter on the backend side, JavaScript's
    `undefined` on the frontend side. */
module Wrappers {

  datatype Option<+T> = None | Some(value: T) {

    /** The value, or `default` when there is none (Python's `.get(key, default=...)`). */
    function GetOr(default: T): T {
      match this
      case Some(v) => v
      case None => default
    }
  }
}
