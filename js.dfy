/**
 * The JavaScript built-ins the component relies on, over unbounded integers:
 * `Math.abs`, `Math.min`, `Math.max`, `Math.ceil` of a quotient,
 * `Array.prototype.slice`, and a value that may be `undefined`.
 */
module Js {

  /** A value, or JavaScript's `undefined`/`null`. */
  datatype Option<T> = None | Some(value: T)

  function Abs(x: int): (r: nat)
    ensures r == x || r == -x
  {
    if x < 0 then -x else x
  }

  function Min(a: int, b: int): (r: int)
    ensures r <= a && r <= b && (r == a || r == b)
  {
    if a <= b then a else b
  }

  function Max(a: int, b: int): (r: int)
    ensures r >= a && r >= b && (r == a || r == b)
  {
    if a >= b then a else b
  }

  /**
   * `Math.ceil(n / d)` for a positive divisor: the least `q` with `n <= d * q`.
   * (Dafny's `/` floors for a positive divisor, so the rounded-up quotient is
   * the floor of `n + d - 1` over `d`.)
   */
  function CeilDiv(n: int, d: int): (q: int)
    requires d > 0
    ensures d * (q - 1) < n <= d * q
  {
    var q := (n + d - 1) / d;
    assert d * q + (n + d - 1) % d == n + d - 1;
    q
  }

  /** The normalisation of a `slice` bound: a negative bound counts from the end, then both are clamped to `[0, len]`. */
  function SliceBound(k: int, len: nat): (b: nat)
    ensures b <= len
    ensures 0 <= k <= len ==> b == k
    ensures k > len ==> b == len
    ensures k < 0 ==> b == Max(0, len + k)
  {
    if k < 0 then Max(0, len + k)
    else if k > len then len
    else k
  }

  /** `s.slice(begin, end)`: empty when the normalised bounds cross. */
  function Slice<T>(s: seq<T>, begin: int, end: int): (r: seq<T>)
    ensures var b, e := SliceBound(begin, |s|), SliceBound(end, |s|);
      |r| == Max(0, e - b) && forall i :: 0 <= i < |r| ==> r[i] == s[b + i]
    ensures 0 <= begin <= end <= |s| ==> r == s[begin..end]
    ensures forall x :: x in r ==> x in s
  {
    var b, e := SliceBound(begin, |s|), SliceBound(end, |s|);
    if b < e then s[b..e] else []
  }
}
