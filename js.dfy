/** JavaScript values as far as the tween stores, compares or writes them. */
module JsValues {

  datatype Option<+T> = None | Some(value: T) {
    /** The value, or `default` when absent: the "config value or default" lookup */
    function GetOr(default: T): T {
      match this
      case Some(v) => v
      case None => default
    }
  }

  datatype Result<+T, +E> = Success(value: T) | Failure(error: E)

  /** A value held by a property of a target, or by a stage's `value` / `startAt` */
  datatype JsValue = Undefined | Null | Bool(b: bool) | Number(n: real) | Str(s: string)

  /** JavaScript truthiness (NaN, the one other falsy number, is not representable here) */
  predicate Truthy(v: JsValue) {
    match v
    case Undefined => false
    case Null => false
    case Bool(b) => b
    case Number(n) => n != 0.0
    case Str(s) => s != ""
  }

  /** The outcome of a JavaScript division of two integral numbers: division by zero
      gives NaN or an infinity, both collapsed into `NotFinite`. */
  datatype Fraction = Finite(r: real) | NotFinite

  function Divide(e: int, d: int): (q: Fraction)
    ensures d != 0 <==> q.Finite?
    ensures q.Finite? ==> q.r * d as real == e as real
  {
    if d == 0 then NotFinite else Finite(e as real / d as real)
  }

  /** A reference to a caller-supplied function, scope object or argument list;
      `Unset` is `undefined`. The tween never looks inside one. */
  datatype JsRef = Unset | Ref(id: nat)
}
