/** Optional values and error results shared by every module of the model.
    A graph query answer that may have no row, a nullable property and a
    lookup that may find nothing are all `Option`s; an operation that throws
    a domain error returns a `Result`. */
module Wrappers {

  /** A value that may be absent (`null` in the service code). */
  datatype Option<+T> = None | Some(value: T) {

    /** The value, or `default` when absent. */
    function GetOr(default: T): T {
      match this
      case Some(v) => v
      case None => default
    }
  }

  /** The outcome of an operation that may fail with a message. */
  datatype Result<+R> = Success(value: R) | Failure(error: string)

  /** JavaScript truthiness of an optional string: `null`, `undefined` and
      the empty string are falsy, every other string is truthy. */
  predicate Truthy(s: Option<string>) {
    s.Some? && s.value != ""
  }
}
