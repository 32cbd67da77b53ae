/**
 * Hand landmarks as the hand tracker delivers them: one array of 3D points per
 * tracked hand, in normalised image/depth coordinates (main.js:216, main.js:227).
 */
module Landmarks {
  import opened Wrappers

  /** One tracked point of a hand. */
  datatype Landmark = Landmark(x: real, y: real, z: real)

  /**
   * One hand. An entry may be a hole, and an index past the end is simply
   * absent: the classifier reads `hand[i]` and skips the point when it is
   * falsy, so both cases read as `None` through `At`.
   */
  type Hand = seq<Option<Landmark>>

  /** `hand[i]` as the classifier sees it: absent when out of range or a hole. */
  function At(h: Hand, i: nat): (p: Option<Landmark>)
    ensures p.Some? <==> i < |h| && h[i].Some?
    ensures p.Some? ==> p == h[i]
  {
    if i < |h| then h[i] else None
  }

  /** A rigid translation of a point, used to state invariance properties. */
  function Move(p: Landmark, dx: real, dy: real, dz: real): Landmark
  {
    Landmark(p.x + dx, p.y + dy, p.z + dz)
  }

  /** The same hand moved by (dx, dy, dz): every present landmark moves, holes stay holes. */
  function Shift(h: Hand, dx: real, dy: real, dz: real): (s: Hand)
    ensures |s| == |h|
    ensures forall i :: 0 <= i < |h| ==>
      s[i] == (if h[i].Some? then Some(Move(h[i].value, dx, dy, dz)) else None)
  {
    seq(|h|, i requires 0 <= i < |h| =>
      if h[i].Some? then Some(Move(h[i].value, dx, dy, dz)) else None)
  }

  lemma ShiftAt(h: Hand, dx: real, dy: real, dz: real, i: nat)
    ensures At(Shift(h, dx, dy, dz), i) ==
      (if At(h, i).Some? then Some(Move(At(h, i).value, dx, dy, dz)) else None)
  {
  }
}
