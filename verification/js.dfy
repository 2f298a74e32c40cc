/** The few JavaScript operator semantics the application's logic leans on. */
module Js {
  import opened Wrappers

  /** A string is truthy when it is present and not empty. */
  predicate Truthy(s: Option<string>) {
    s.Some? && s.value != ""
  }

  /** `a || b` where `a` is an optional string and `b` a string. */
  function Or(a: Option<string>, b: string): (r: string)
    ensures Truthy(a) ==> r == a.value
    ensures !Truthy(a) ==> r == b
  {
    if Truthy(a) then a.value else b
  }

  /** `a || b` where both sides are optional strings. */
  function OrOpt(a: Option<string>, b: Option<string>): (r: Option<string>)
    ensures Truthy(a) ==> r == a
    ensures !Truthy(a) ==> r == b
  {
    if Truthy(a) then a else b
  }

  /** The number `%` operator: the remainder takes the sign of the dividend. */
  function Rem(a: int, n: int): (r: int)
    requires n > 0
    ensures a >= 0 ==> 0 <= r < n
    ensures a < 0 ==> -n < r <= 0
  {
    if a >= 0 then a % n else -((-a) % n)
  }

  /** The start position `Array.prototype.splice(index, …)` uses on a list of length `n`. */
  function SpliceStart(index: int, n: nat): (k: nat)
    ensures k <= n
  {
    if index < 0 then (if n + index < 0 then 0 else n + index)
    else if index > n then n
    else index
  }

  /** `xs.splice(index, 1)`: removes one element at the normalised start, if any remains there. */
  function SpliceOne<T>(xs: seq<T>, index: int): (r: seq<T>)
    ensures 0 <= index < |xs| ==> r == xs[..index] + xs[index + 1..]
    ensures index >= |xs| ==> r == xs
    ensures |xs| > 0 ==> |r| == |xs| - 1 || index >= |xs|
  {
    var k := SpliceStart(index, |xs|);
    if k < |xs| then xs[..k] + xs[k + 1..] else xs
  }
}
