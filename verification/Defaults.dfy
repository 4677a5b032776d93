/**
 * The constructors read their inputs with JavaScript's `x || fallback`: a
 * missing value and a falsy one (the empty string, the number 0) both give
 * the fallback.
 */
module Defaults {
  import opened Wrappers

  /** `text || fallback` on an optional string. */
  function OrText(s: Option<string>, fallback: string): (r: string)
    ensures r == fallback || s == Some(r)
    ensures fallback != "" ==> r != ""
    ensures s.Some? && s.value != "" ==> r == s.value
  {
    if s.None? || s.value == "" then fallback else s.value
  }

  /** `number || fallback` on an optional integer. */
  function OrNumber(n: Option<int>, fallback: int): (r: int)
    ensures r == fallback || n == Some(r)
    ensures fallback != 0 ==> r != 0
    ensures n.Some? && n.value != 0 ==> r == n.value
  {
    if n.None? || n.value == 0 then fallback else n.value
  }
}
