/// JavaScript value conventions used throughout the model: optional values,
/// the falsiness of `undefined`, `null` and `""`, and the numbers that
/// `Number.parseInt` can yield.
module Js {

  datatype Option<+T> = None | Some(value: T)

  /** A string that may be missing is truthy when present and non-empty. */
  predicate Truthy(s: Option<string>) {
    s.Some? && s.value != ""
  }

  /** JavaScript's `a || fallback` on a string that may be missing. */
  function Or(a: Option<string>, fallback: string): string {
    if Truthy(a) then a.value else fallback
  }

  /** A JavaScript number as the forms hold it: unset, `NaN` (what
      `Number.parseInt` gives for text without digits) or an integer. */
  datatype Num = Undefined | NaN | Int(n: int)

  /** `0`, `NaN` and `undefined` are falsy. */
  predicate NumTruthy(x: Num) {
    x.Int? && x.n != 0
  }

  /** JavaScript's `x || fallback` on a number. */
  function NumOr(x: Num, fallback: int): int {
    if NumTruthy(x) then x.n else fallback
  }
}
