/**
 * The palm-orientation detector (`palmVector`, `detectPalmOrientation`,
 * main.js:400-432). Each hand gets the vector from its wrist to the midpoint
 * of its index and pinky knuckles; the palms count as facing when the two
 * vectors point against each other.
 */
module PalmOrientation {
  import opened Wrappers
  import opened Landmarks

  datatype Vec3 = Vec3(x: real, y: real, z: real)

  const Wrist: nat := 0
  const IndexKnuckle: nat := 5
  const PinkyKnuckle: nat := 17
  /** The dot product must fall below this for the palms to face each other. */
  const FacingLimit: real := -0.2

  function Dot(a: Vec3, b: Vec3): real
  {
    a.x * b.x + a.y * b.y + a.z * b.z
  }

  function Neg(a: Vec3): Vec3
  {
    Vec3(-a.x, -a.y, -a.z)
  }

  /**
   * Wrist to the midpoint of the two knuckles: the mean of the two edges
   * wrist-to-index and wrist-to-pinky. Neither a cross product nor unit length.
   */
  function PalmVector(h: Hand): (v: Option<Vec3>)
    ensures v.Some? <==> At(h, Wrist).Some? && At(h, IndexKnuckle).Some? && At(h, PinkyKnuckle).Some?
    ensures v.Some? ==>
      var w, i, p := At(h, Wrist).value, At(h, IndexKnuckle).value, At(h, PinkyKnuckle).value;
      v.value == Vec3(((i.x - w.x) + (p.x - w.x)) / 2.0,
                      ((i.y - w.y) + (p.y - w.y)) / 2.0,
                      ((i.z - w.z) + (p.z - w.z)) / 2.0)
  {
    var wrist, index, pinky := At(h, Wrist), At(h, IndexKnuckle), At(h, PinkyKnuckle);
    if wrist.None? || index.None? || pinky.None? then None
    else
      var cx := (index.value.x + pinky.value.x) / 2.0;
      var cy := (index.value.y + pinky.value.y) / 2.0;
      var cz := (index.value.z + pinky.value.z) / 2.0;
      Some(Vec3(cx - wrist.value.x, cy - wrist.value.y, cz - wrist.value.z))
  }

  /** `detectPalmOrientation(hands)`: both vectors exist and point against each other. */
  predicate PalmsFacing(left: Hand, right: Hand)
    ensures PalmsFacing(left, right) ==>
      && At(left, Wrist).Some? && At(left, IndexKnuckle).Some? && At(left, PinkyKnuckle).Some?
      && At(right, Wrist).Some? && At(right, IndexKnuckle).Some? && At(right, PinkyKnuckle).Some?
  {
    var vL, vR := PalmVector(left), PalmVector(right);
    vL.Some? && vR.Some? && Dot(vL.value, vR.value) < FacingLimit
  }

  /** False when a wrist or knuckle is missing on either hand; otherwise decided by the dot product. */
  lemma PalmsFacingIff(left: Hand, right: Hand)
    ensures PalmsFacing(left, right) <==>
      && At(left, Wrist).Some? && At(left, IndexKnuckle).Some? && At(left, PinkyKnuckle).Some?
      && At(right, Wrist).Some? && At(right, IndexKnuckle).Some? && At(right, PinkyKnuckle).Some?
      && Dot(PalmVector(left).value, PalmVector(right).value) < FacingLimit
  {
  }

  /** The verdict does not depend on which hand the tracker reports first. */
  lemma PalmsFacingSymmetric(left: Hand, right: Hand)
    ensures PalmsFacing(left, right) == PalmsFacing(right, left)
  {
    if PalmVector(left).Some? && PalmVector(right).Some? {
      var a, b := PalmVector(left).value, PalmVector(right).value;
      assert Dot(a, b) == Dot(b, a);
    }
  }

  /** A palm vector is a difference of points, so moving a hand does not change it. */
  lemma PalmVectorTranslation(h: Hand, dx: real, dy: real, dz: real)
    ensures PalmVector(Shift(h, dx, dy, dz)) == PalmVector(h)
  {
    ShiftAt(h, dx, dy, dz, Wrist);
    ShiftAt(h, dx, dy, dz, IndexKnuckle);
    ShiftAt(h, dx, dy, dz, PinkyKnuckle);
  }

  /** Each hand may move on its own without changing the orientation verdict. */
  lemma PalmsFacingTranslation(left: Hand, right: Hand, l: Vec3, r: Vec3)
    ensures PalmsFacing(Shift(left, l.x, l.y, l.z), Shift(right, r.x, r.y, r.z)) == PalmsFacing(left, right)
  {
    PalmVectorTranslation(left, l.x, l.y, l.z);
    PalmVectorTranslation(right, r.x, r.y, r.z);
  }

  /** Mirror-image hands whose vectors are long enough always face each other. */
  lemma MirroredPalmsFacing(left: Hand, right: Hand)
    requires PalmVector(left).Some? && PalmVector(right) == Some(Neg(PalmVector(left).value))
    requires Dot(PalmVector(left).value, PalmVector(left).value) > -FacingLimit
    ensures PalmsFacing(left, right)
  {
    var v := PalmVector(left).value;
    assert Dot(v, Neg(v)) == -Dot(v, v);
  }
}
