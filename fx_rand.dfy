/** The seeded random source the sketch draws from (fxhash_lib/random, which is not part of
    this model). It is modelled as a stream of samples in [0, 1) and a cursor: every draw
    consumes the next sample, so the same stream reproduces the same artwork. The mapping of a
    sample onto a range is the usual affine one; the proofs rely only on the range. */
module FxRand {
  import opened Js

  type Stream = nat -> real

  ghost predicate Uniform(s: Stream) {
    forall k: nat :: 0.0 <= s(k) < 1.0
  }

  /** `num(lo, hi)` */
  function Num(lo: real, hi: real, u: real): (r: real)
    requires 0.0 <= u < 1.0
    ensures lo <= hi ==> lo <= r <= hi
    ensures lo < hi ==> r < hi
  {
    var w := hi - lo;
    if lo <= hi then ScaledSample(w, u); lo + w * u
    else lo + w * u
  }

  /** `num(lo, hi) * mult`: for a nonnegative factor, inside `[lo * mult, hi * mult]`. */
  function ScaledNum(lo: real, hi: real, mult: real, u: real): (r: real)
    requires 0.0 <= u < 1.0
    ensures lo <= hi && mult >= 0.0 ==> lo * mult <= r <= hi * mult
  {
    var v := Num(lo, hi, u);
    if lo <= hi && mult >= 0.0 then
      assert (v - lo) * mult >= 0.0;
      assert (hi - v) * mult >= 0.0;
      v * mult
    else
      v * mult
  }

  /** `int(lo, hi)`: both ends included */
  function Int(lo: int, hi: int, u: real): (r: int)
    requires 0.0 <= u < 1.0
    requires lo <= hi
    ensures lo <= r <= hi
  {
    var span := (hi - lo + 1) as real;
    ScaledSample(span, u);
    lo + (span * u).Floor
  }

  /** A sample scaled by a nonnegative width stays inside [0, width]. */
  lemma ScaledSample(w: real, u: real)
    requires 0.0 <= u < 1.0 && w >= 0.0
    ensures 0.0 <= w * u <= w
    ensures w > 0.0 ==> w * u < w
  {
    assert w - w * u == w * (1.0 - u);
    assert w * (1.0 - u) >= 0.0;
  }

  /** `bool()` */
  function Bool(u: real): bool {
    u < 0.5
  }

  /** `choice(list)`: an element of the list, or `undefined` for an empty one. */
  function Choice<T>(list: seq<T>, u: real): (r: Option<T>)
    requires 0.0 <= u < 1.0
    ensures r.Some? <==> |list| > 0
    ensures r.Some? ==> r.value in list
  {
    if |list| == 0 then None else Some(list[Int(0, |list| - 1, u)])
  }

  /** The shared generator: a fixed stream and how much of it has been drawn. */
  class Rng {
    const stream: Stream
    var cursor: nat

    ghost predicate Valid() {
      Uniform(stream)
    }

    constructor (s: Stream)
      requires Uniform(s)
      ensures Valid() && stream == s && cursor == 0
    {
      stream := s;
      cursor := 0;
    }

    /** One draw: the next sample of the stream. */
    method Next() returns (u: real)
      requires Valid()
      modifies this`cursor
      ensures u == stream(old(cursor)) && cursor == old(cursor) + 1
      ensures 0.0 <= u < 1.0
    {
      u := stream(cursor);
      cursor := cursor + 1;
    }
  }
}
