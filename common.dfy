/** Small value wrappers shared by the other modules: an optional value (a
    JavaScript `undefined`/`null` or a present value), a result carrying either
    a value or the error a call throws, and the "one item or an array of them"
    argument shape the library accepts in several places. */
module Common {

  datatype Option<+T> = None | Some(value: T) {
    /** `x ?? fallback` */
    function GetOr(fallback: T): T {
      match this
      case Some(v) => v
      case None => fallback
    }
  }

  /** The outcome of a call that may throw: `Ok` with the returned value, or
      `Err` with the error that was thrown. */
  datatype Result<+R, +E> = Ok(value: R) | Err(error: E)

  /** An argument typed `X | X[]`. */
  datatype OneOrMany<+T> = One(item: T) | Many(items: seq<T>)

  /** `Array.isArray(x) ? x : [x]` */
  function AsList<T>(x: OneOrMany<T>): (r: seq<T>)
    ensures x.One? ==> |r| == 1 && r[0] == x.item
    ensures x.Many? ==> r == x.items
  {
    match x
    case One(v) => [v]
    case Many(vs) => vs
  }

  function Min(a: int, b: int): int {
    if a <= b then a else b
  }
}
