/** Values shared by every part of the model: optional values and the
    truthiness JavaScript gives to an optional string field. */
module Common {

  datatype Option<+T> = None | Some(value: T) {
    function GetOr(default: T): T {
      match this
      case Some(v) => v
      case None => default
    }
  }

  /** `if (x)` on a request field that may be missing: a string is truthy
      exactly when it is present and not empty. */
  predicate Truthy(o: Option<string>) {
    o.Some? && o.value != ""
  }
}
