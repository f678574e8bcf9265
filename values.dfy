/**
 * JavaScript values as the session object sees them: what the store hands back
 * from `getValue`, and the two coercions the session code relies on, truthiness
 * in a condition and conversion to a number in a subtraction.
 */
module Values {

  datatype Option<T> = None | Some(value: T)

  /** A value held in the store or in a field of the session. */
  datatype Value =
    | Undefined
    | Null
    | Boolean(b: bool)
    | Number(n: int)
    | Text(s: string)

  /** The truth value JavaScript gives `v` when it is used as a condition. */
  predicate Truthy(v: Value)
  {
    match v
    case Undefined => false
    case Null => false
    case Boolean(b) => b
    case Number(n) => n != 0
    case Text(s) => s != ""
  }

  /**
   * The number `v` becomes in an arithmetic expression; `None` stands for NaN.
   * Strings are not parsed: every number the session writes is a `Number`.
   */
  function ToNumber(v: Value): Option<int>
  {
    match v
    case Undefined => None
    case Null => Some(0)
    case Boolean(b) => Some(if b then 1 else 0)
    case Number(n) => Some(n)
    case Text(_) => None
  }

  /** The JavaScript expression `x - v`, `None` being NaN. */
  function Minus(x: int, v: Value): Option<int>
  {
    match ToNumber(v)
    case None => None
    case Some(n) => Some(x - n)
  }

  /** `d > bound`; every comparison with NaN is false. */
  predicate Exceeds(d: Option<int>, bound: int)
  {
    d.Some? && d.value > bound
  }

  /** `d < bound`; every comparison with NaN is false. */
  predicate Below(d: Option<int>, bound: int)
  {
    d.Some? && d.value < bound
  }
}
