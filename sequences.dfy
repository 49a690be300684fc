/** Lodash's `_.chunk` and `_.flatten` on sequences. */
module Sequences {

  /** One level of flattening: the concatenation of the inner sequences. */
  function Flatten<T>(xss: seq<seq<T>>): seq<T>
    decreases |xss|
  {
    if xss == [] then [] else xss[0] + Flatten(xss[1..])
  }

  /** `_.chunk(xs, n)`: consecutive groups of `n`, the last one possibly shorter. */
  function Chunk<T>(xs: seq<T>, n: nat): (chunks: seq<seq<T>>)
    requires n > 0
    ensures Flatten(chunks) == xs
    ensures forall i :: 0 <= i < |chunks| ==> 0 < |chunks[i]| <= n
    ensures forall i :: 0 <= i < |chunks| - 1 ==> |chunks[i]| == n
    decreases |xs|
  {
    if xs == [] then []
    else if |xs| <= n then
      assert Flatten([xs]) == xs + [];
      [xs]
    else
      var rest := Chunk(xs[n..], n);
      assert ([xs[..n]] + rest)[1..] == rest;
      [xs[..n]] + rest
  }
}
