/**
 * The few pieces of JavaScript semantics the library relies on: a read past the
 * end of an array yields `undefined` (here `None`), `String(undefined)` is
 * `"undefined"`, and the array built-ins `indexOf`, `slice(0, n)` and `splice(i, 1)`.
 */
module JsValues {
  import opened Wrappers

  /** `a[i]` on an array whose slots all hold values. */
  function Get<T>(a: seq<T>, i: int): Option<T> {
    if 0 <= i < |a| then Some(a[i]) else None
  }

  /** `a[i]` on an array whose slots may already be `undefined`. */
  function Read<T>(a: seq<Option<T>>, i: int): Option<T> {
    if 0 <= i < |a| then a[i] else None
  }

  /** Every entry of a list, as a defined slot. */
  function Lift<T>(a: seq<T>): (r: seq<Option<T>>)
    ensures |r| == |a|
    ensures forall i :: 0 <= i < |a| ==> r[i] == Some(a[i])
  {
    seq(|a|, i requires 0 <= i < |a| => Some(a[i]))
  }

  /** `a.indexOf(x)`: the first position holding `x`, or -1. */
  function IndexOf<T(==)>(a: seq<T>, x: T): (i: int)
    ensures -1 <= i < |a|
    ensures i == -1 <==> x !in a
    ensures 0 <= i ==> a[i] == x && x !in a[..i]
    decreases |a|
  {
    if a == [] then -1
    else if a[0] == x then 0
    else
      var j := IndexOf(a[1..], x);
      assert a == [a[0]] + a[1..];
      if j == -1 then -1
      else
        assert a[..j + 1] == [a[0]] + a[1..][..j];
        j + 1
  }

  /**
   * `a.slice(0, n)`: the first `n` entries, or all of them when there are fewer;
   * a negative `n` counts from the end, dropping the last `-n` entries.
   */
  function Slice<T>(a: seq<T>, n: int): (r: seq<T>)
    ensures |r| == if n < 0 then (if |a| + n > 0 then |a| + n else 0) else if n < |a| then n else |a|
    ensures r <= a
  {
    if n < 0 then (if |a| + n > 0 then a[..|a| + n] else [])
    else if n < |a| then a[..n] else a
  }

  /** `a.splice(i, 1)` applied in place: the entry at `i` is removed. */
  function Splice<T>(a: seq<T>, i: nat): (r: seq<T>)
    requires i < |a|
    ensures |r| == |a| - 1
    ensures forall k :: 0 <= k < i ==> r[k] == a[k]
    ensures forall k :: i <= k < |r| ==> r[k] == a[k + 1]
  {
    a[..i] + a[i + 1..]
  }

}
