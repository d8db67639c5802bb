/**
 * Value shapes shared by the model of the uploader: JavaScript's
 * `undefined`/`null` distinctions, bytes, and the truthiness tests that
 * the source's `||` and `??` defaults rely on.
 */
module JsCommon {

  /** A value that may be absent (`undefined` in the source). */
  datatype Option<+T> = None | Some(value: T) {
    function GetOr(default: T): T {
      match this
      case Some(v) => v
      case None => default
    }
  }

  /** A value, or what the source throws instead of returning one. */
  datatype Result<+T, +E> = Ok(value: T) | Err(error: E)

  /** A value that distinguishes an omitted option (`undefined`) from an explicit `null`. */
  datatype Nullable<+T> = Undefined | Null | Defined(value: T)

  /** One element of a `Uint8Array`. */
  type byte = bv8

  /** `value || default` on a JavaScript number: 0 (and an absent value) is falsy. */
  function NumberOr(value: Option<int>, default: int): (r: int)
    ensures value.None? ==> r == default
    ensures value.Some? && value.value == 0 ==> r == default
    ensures value.Some? && value.value != 0 ==> r == value.value
  {
    match value
    case Some(n) => if n != 0 then n else default
    case None => default
  }

  /** `value || default` on a JavaScript string: the empty string is falsy. */
  function StringOr(value: Option<string>, default: string): (r: string)
    ensures value.None? ==> r == default
    ensures value.Some? && value.value == "" ==> r == default
    ensures value.Some? && value.value != "" ==> r == value.value
  {
    match value
    case Some(s) => if s != "" then s else default
    case None => default
  }

  /**
   * `Math.ceil(a / b)` for integers and a non-zero divisor. The quotient
   * is exact in floating point while |a| stays below 2^52.
   */
  function CeilDiv(a: int, b: int): int
    requires b != 0
  {
    if b > 0 then -((-a) / b) else -(a / (-b))
  }

  /** `CeilDiv` is the ceiling of the exact quotient: the least q with a <= q * b, for b > 0. */
  lemma CeilDivBounds(a: int, b: int)
    requires b != 0
    ensures b > 0 ==> (CeilDiv(a, b) - 1) * b < a <= CeilDiv(a, b) * b
    ensures b < 0 ==> CeilDiv(a, b) * b <= a < (CeilDiv(a, b) - 1) * b
  {
  }
}
