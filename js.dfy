/** The few JavaScript value semantics the two adapters rely on:
    `null`/`undefined` as an absent value, the nullish-coalescing operator
    `??`, truthiness of optional strings, `String.prototype.startsWith` and
    JSON values. Number truthiness, `||` on numbers and `endsWith` are used
    by neither adapter; they are here only to state properties of them. */
module Js {

  /** A value that may be `undefined` or `null` (both are `None`). */
  datatype Option<+T> = None | Some(value: T)

  /** `x ?? fallback`: the fallback is used only when `x` is nullish. */
  function Coalesce<T>(x: Option<T>, fallback: T): T
  {
    if x.Some? then x.value else fallback
  }

  /** `x ?? fallback` where the fallback may itself be `undefined`. */
  function CoalesceOption<T>(x: Option<T>, fallback: Option<T>): Option<T>
  {
    if x.Some? then x else fallback
  }

  /** Truthiness of an optional string: defined and not the empty string. */
  predicate StringTruthy(s: Option<string>)
  {
    s.Some? && s.value != ""
  }

  /** Truthiness of an optional number (NaN is not modelled): defined and not zero. */
  predicate NumberTruthy(x: Option<real>)
  {
    x.Some? && x.value != 0.0
  }

  /** `x || fallback` on numbers, the falsy-based operator the adapters do NOT use. */
  function OrNumber(x: Option<real>, fallback: real): real
  {
    if NumberTruthy(x) then x.value else fallback
  }

  /** `??` and `||` agree on every input except a supplied zero with a non-zero
      fallback: there `??` keeps the zero and `||` replaces it. */
  lemma CoalesceDiffersFromOrOnlyOnZero(x: Option<real>, fallback: real)
    ensures Coalesce(x, fallback) != OrNumber(x, fallback) <==> (x == Some(0.0) && fallback != 0.0)
    ensures x.Some? ==> Coalesce(x, fallback) == x.value
  {
  }

  /** `s.startsWith(p)`. */
  predicate StartsWith(s: string, p: string)
  {
    |p| <= |s| && s[..|p|] == p
  }

  /** `s.endsWith(p)`. */
  predicate EndsWith(s: string, p: string)
  {
    |p| <= |s| && s[|s| - |p|..] == p
  }

  /** A JSON value, as carried by tool schemas and tool arguments. */
  datatype Json =
    | JNull
    | JBool(b: bool)
    | JNumber(n: real)
    | JString(s: string)
    | JArray(items: seq<Json>)
    | JObject(members: seq<(string, Json)>)
}
