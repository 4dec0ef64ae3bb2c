/**
 * The slice of JavaScript semantics the tournament setter relies on: truthiness
 * and the `a || b` idiom used to merge a possibly-undefined property into an
 * existing value.
 */
module Js {
  import opened Wrappers

  /** A number is falsy only when it is 0 (NaN is not modelled). */
  predicate TruthyNumber(x: real) {
    x != 0.0
  }

  /** A string is falsy only when it is empty. */
  predicate TruthyString(s: string) {
    |s| > 0
  }

  /** A boolean is its own truth value. */
  predicate TruthyBoolean(b: bool) {
    b
  }

  /**
   * Objects, arrays (the empty array included) and the non-empty string literals
   * of the option enumerations are always truthy.
   */
  predicate TruthyObject<T>(x: T) {
    true
  }

  /**
   * `a || b` where `a` is a property read that may be undefined: the read value
   * when it is present and truthy, `b` otherwise.
   */
  function Or<T>(a: Option<T>, truthy: T -> bool, b: T): (r: T)
    ensures a.Some? && truthy(a.value) ==> r == a.value
    ensures !(a.Some? && truthy(a.value)) ==> r == b
  {
    if a.Some? && truthy(a.value) then a.value else b
  }

  /** The part of a property read that can influence `a || b`: falsy values are dropped. */
  function Keep<T>(a: Option<T>, truthy: T -> bool): (r: Option<T>)
    ensures r.Some? ==> r == a && truthy(r.value)
    ensures a.Some? && truthy(a.value) ==> r == a
  {
    if a.Some? && truthy(a.value) then a else None
  }

  /**
   * The property read that has the effect of `(second || (first || b))` in one
   * `||`: the later read wins whenever it is truthy.
   */
  function Later<T>(first: Option<T>, second: Option<T>, truthy: T -> bool): (r: Option<T>)
    ensures r == second || r == first
  {
    if second.Some? && truthy(second.value) then second else first
  }
}
