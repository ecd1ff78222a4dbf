/** Coordinate pairs as the application passes them around. */
module Geo {
  /** A two-element numeric array `[first, second]`. The frontend keeps its
      points as `[lat, lng]`; the routing service answers with `[lon, lat]`. */
  datatype Pair = Pair(first: real, second: real)

  /** The great-circle distance in meters between two `[lat, lng]` points. It
      is a parameter of the operations that use it: the haversine formula is
      floating-point trigonometry and is not modelled. */
  type Distance = (Pair, Pair) -> real

  /** `[p[1], p[0]]`: the callback the source maps over coordinate lists. */
  function Swap(p: Pair): Pair {
    Pair(p.second, p.first)
  }

  /** `coords.map((c) => [c[1], c[0]])`. */
  function SwapAll(ps: seq<Pair>): (qs: seq<Pair>)
    ensures |qs| == |ps|
    ensures forall i :: 0 <= i < |ps| ==> qs[i].first == ps[i].second && qs[i].second == ps[i].first
  {
    if ps == [] then [] else [Swap(ps[0])] + SwapAll(ps[1..])
  }

  /** Swapping a coordinate list twice gives it back. */
  lemma {:induction false} SwapAllTwice(ps: seq<Pair>)
    ensures SwapAll(SwapAll(ps)) == ps
  {
    var qs := SwapAll(SwapAll(ps));
    assert |qs| == |ps|;
    forall i | 0 <= i < |ps| ensures qs[i] == ps[i] {
    }
  }
}
