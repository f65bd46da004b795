/**
 * The value types the hook is written in: the Option, Result and AsyncData
 * types of the Future/Result library it uses, and a JavaScript value that may
 * be `null` or `undefined`.
 */
module Boxed {

  /** A JavaScript value as it sits in a cache slot: either nullish
      (`null` or `undefined`, which the hook cannot tell apart) or a real value. */
  datatype JsValue<+V> = Nullish | Val(value: V)

  datatype Option<+T> = None | Some(value: T) {
    function GetOr(default: T): (r: T)
      ensures Some? ==> r == value
      ensures None? ==> r == default
    {
      match this
      case Some(v) => v
      case None => default
    }
  }

  /** `Option.fromNullable`: a present value, or None for null and undefined. */
  function FromNullable<V>(x: JsValue<V>): (r: Option<V>)
    ensures r.Some? <==> x.Val?
    ensures r.Some? ==> x == Val(r.value)
  {
    match x
    case Nullish => None
    case Val(v) => Some(v)
  }

  /** The outcome of one fetch attempt. */
  datatype Result<+T, +E> = Ok(value: T) | Error(error: E)

  /** The observable lifecycle of one request: not asked, loading, or done. */
  datatype AsyncData<+A> = NotAsked | Loading | Done(result: A)
}
