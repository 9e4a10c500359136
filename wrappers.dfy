/** Option, Result and the JavaScript "maybe missing" value, shared by every module. */
module Wrappers {

  datatype Option<+T> = None | Some(value: T) {
    /** The value, or `default` when missing: the `??` operator on a value that is never null. */
    function GetOr(default: T): T {
      match this
      case Some(v) => v
      case None => default
    }
  }

  /** The outcome of an operation that either returns or throws. */
  datatype Result<+T, +E> = Success(value: T) | Failure(error: E)

  /** A JavaScript value of type `T | null | undefined`, where `undefined` and `null` differ. */
  datatype Nullish<+T> = Undefined | Null | Defined(value: T) {
    /** `this ?? null`: both missing forms collapse to null. */
    function OrNull(): Option<T> {
      if Defined? then Some(value) else None
    }
  }

  /** A stored `T | null` seen as a JavaScript value, never `undefined`. */
  function AsNullish<T>(o: Option<T>): (r: Nullish<T>)
    ensures !r.Undefined?
    ensures r.OrNull() == o
  {
    match o
    case Some(v) => Defined(v)
    case None => Null
  }
}
