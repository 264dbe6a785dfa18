/**
 * The two JavaScript array operations the library uses to find and drop
 * one element: `indexOf` (strict equality, first occurrence, `-1` when
 * absent) and `splice(idx, 1)`.
 */
module JsArrays {

  function IndexOf<X(==)>(xs: seq<X>, x: X): (r: int)
    ensures -1 <= r < |xs|
    ensures r >= 0 ==> xs[r] == x && forall j :: 0 <= j < r ==> xs[j] != x
    ensures r == -1 ==> forall j :: 0 <= j < |xs| ==> xs[j] != x
  {
    if xs == [] then -1
    else if xs[0] == x then 0
    else var k := IndexOf(xs[1..], x); if k == -1 then -1 else k + 1
  }

  /** `xs.splice(i, 1)`: the element at `i` is gone, the others keep their order. */
  function RemoveAt<X>(xs: seq<X>, i: nat): (r: seq<X>)
    requires i < |xs|
    ensures |r| == |xs| - 1
    ensures forall j :: 0 <= j < i ==> r[j] == xs[j]
    ensures forall j :: i <= j < |r| ==> r[j] == xs[j + 1]
    ensures multiset(r) + multiset{xs[i]} == multiset(xs)
  {
    assert xs == xs[..i] + [xs[i]] + xs[i + 1..];
    xs[..i] + xs[i + 1..]
  }
}
