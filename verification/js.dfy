/**
 * The small fragment of JavaScript value semantics the site's code relies on:
 * values that are either `undefined` or a string, their truthiness, the `||`
 * operator on them, and `String.prototype.substring` from index zero.
 */
module Js {

  /** A value that may be absent: `None` stands for `undefined` (or `null`). */
  datatype Option<+T> = None | Some(value: T)

  /** JavaScript truthiness of an optional string: `undefined` and `""` are falsy. */
  predicate Truthy(v: Option<string>) {
    v.Some? && v.value != ""
  }

  /** `a || b` where both operands are optional strings. */
  function Or(a: Option<string>, b: Option<string>): (r: Option<string>)
    ensures Truthy(r) <==> Truthy(a) || Truthy(b)
    ensures Truthy(a) ==> r == a
  {
    if Truthy(a) then a else b
  }

  /** `a || d` where `d` is a string literal. */
  function OrElse(a: Option<string>, d: string): (r: string)
    ensures d != "" ==> r != ""
    ensures Truthy(a) ==> r == a.value
  {
    if Truthy(a) then a.value else d
  }

  /** `s.substring(0, n)`: the first `n` characters of `s`, or all of `s` when it is shorter. */
  function Substring(s: string, n: nat): (r: string)
    ensures |r| == if |s| < n then |s| else n
    ensures r <= s
  {
    if |s| < n then s else s[..n]
  }
}
