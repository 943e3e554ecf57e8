/**
 * The few pieces of JavaScript value semantics that the dashboard's logic
 * relies on: values that may be missing, and the `||` fallback applied to
 * numbers (where both a missing value and 0 select the fallback).
 */
module JsCore {

  /** A value that may be absent: `undefined`, `null` or `NaN` in the browser. */
  datatype Option<+T> = None | Some(value: T)

  /** True when a number read from a record is truthy: present and not 0. */
  predicate Truthy(n: Option<int>)
  {
    n.Some? && n.value != 0
  }

  /** `n || fallback` for a number `n`: the number itself when it is truthy,
      the fallback when it is missing or 0. */
  function OrElse(n: Option<int>, fallback: int): (r: int)
    ensures Truthy(n) ==> r == n.value
    ensures !Truthy(n) ==> r == fallback
    ensures r == 0 ==> fallback == 0
  {
    if Truthy(n) then n.value else fallback
  }

  /** `Math.abs` on a number. */
  function Abs(x: real): (r: real)
    ensures 0.0 <= r && (r == x || r == -x)
  {
    if x < 0.0 then -x else x
  }
}
