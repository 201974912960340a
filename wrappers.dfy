/** Option and Result values shared by every module of the model. A JavaScript
    `undefined`/`null` becomes `None`; a thrown `Error(message)` becomes `Failure(message)`. */
module Wrappers {

  datatype Option<+T> = None | Some(value: T) {
    function GetOr(default: T): T {
      match this
      case Some(v) => v
      case None => default
    }
  }

  datatype Result<+T, +E> = Success(value: T) | Failure(error: E) {
    predicate IsFailure() {
      Failure?
    }

    function PropagateFailure<U>(): Result<U, E>
      requires Failure?
    {
      Failure(error)
    }

    function Extract(): T
      requires Success?
    {
      value
    }
  }

  /** JavaScript truthiness of an optional string: `undefined`, `null` and `""` are falsy. */
  predicate Truthy(s: Option<string>) {
    s.Some? && s.value != ""
  }

  /** `list.includes(v)` where `v` may be `undefined`: a list of strings never includes `undefined`. */
  predicate Includes(list: seq<string>, v: Option<string>) {
    v.Some? && v.value in list
  }
}
