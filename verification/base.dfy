/** Values shared by every part of the model: optional values, and the
    JavaScript truthiness of a `string | null` read from browser storage. */
module Base {

  /** `None` plays the role of JavaScript's `null` (or of a thrown error,
      where a function says so). */
  datatype Option<+T> = None | Some(value: T) {

    /** The wrapped value, or `default` when there is none. */
    function GetOr(default: T): T {
      match this
      case Some(v) => v
      case None => default
    }
  }

  /** `if (token)` on a `string | null`: both `null` and `''` are falsy. */
  predicate Truthy(s: Option<string>) {
    s.Some? && s.value != ""
  }
}
