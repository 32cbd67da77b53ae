/**
 * The contact scorer (`getContactScore`, main.js:331-356): how many of seven
 * fixed landmark pairs, one landmark on each hand, are closer than 0.15.
 */
module Contact {
  import opened Wrappers
  import opened Landmarks

  /** A landmark of hand 0 (`l`) checked against a landmark of hand 1 (`r`). */
  datatype Pair = Pair(l: nat, r: nat)

  /** The seven pairs, in the order the scorer visits them. */
  const ContactPairs: seq<Pair> :=
    [Pair(0, 0), Pair(5, 5), Pair(9, 9), Pair(8, 0), Pair(0, 8), Pair(5, 17), Pair(17, 5)]

  /** `Math.hypot(d) < 0.15` over the reals is `|d|^2 < 0.15^2`. */
  const ContactDistance: real := 0.15

  function DistSq(a: Landmark, b: Landmark): (d: real)
    ensures d >= 0.0
  {
    (a.x - b.x) * (a.x - b.x) + (a.y - b.y) * (a.y - b.y) + (a.z - b.z) * (a.z - b.z)
  }

  /** A pair is in contact when both landmarks exist and lie within the contact distance. */
  predicate Touching(left: Hand, right: Hand, p: Pair)
  {
    At(left, p.l).Some? && At(right, p.r).Some? &&
    DistSq(At(left, p.l).value, At(right, p.r).value) < ContactDistance * ContactDistance
  }

  /** One pair's contribution to the score. */
  function Contribution(left: Hand, right: Hand, p: Pair): (n: nat)
    ensures n == 1 <==> Touching(left, right, p)
    ensures n <= 1
  {
    if Touching(left, right, p) then 1 else 0
  }

  /** How many of `ps` are in contact. */
  function CountTouching(left: Hand, right: Hand, ps: seq<Pair>): (n: nat)
    ensures n <= |ps|
  {
    if ps == [] then 0
    else CountTouching(left, right, ps[..|ps| - 1]) + Contribution(left, right, ps[|ps| - 1])
  }

  /** The contact score of two hands. */
  function ContactCount(left: Hand, right: Hand): (n: nat)
    ensures n <= 7
  {
    CountTouching(left, right, ContactPairs)
  }

  /** The scorer's loop over the seven pairs, skipping pairs with a missing landmark. */
  method ContactScore(left: Hand, right: Hand) returns (count: nat)
    ensures count == ContactCount(left, right)
    ensures count <= |ContactPairs|
  {
    count := 0;
    var i := 0;
    while i < |ContactPairs|
      invariant 0 <= i <= |ContactPairs|
      invariant count == CountTouching(left, right, ContactPairs[..i])
    {
      var p := ContactPairs[i];
      assert ContactPairs[..i + 1][..i] == ContactPairs[..i];
      var a := At(left, p.l);
      var b := At(right, p.r);
      if a.Some? && b.Some? {
        if DistSq(a.value, b.value) < ContactDistance * ContactDistance {
          count := count + 1;
        }
      }
      i := i + 1;
    }
    assert ContactPairs[..i] == ContactPairs;
  }

  /** A score is all-or-nothing exactly when every pair, or no pair, is in contact. */
  lemma {:induction false} CountTouchingExtremes(left: Hand, right: Hand, ps: seq<Pair>)
    ensures CountTouching(left, right, ps) == |ps| <==> forall k :: 0 <= k < |ps| ==> Touching(left, right, ps[k])
    ensures CountTouching(left, right, ps) == 0 <==> forall k :: 0 <= k < |ps| ==> !Touching(left, right, ps[k])
  {
    if ps != [] {
      var init := ps[..|ps| - 1];
      CountTouchingExtremes(left, right, init);
      assert forall k :: 0 <= k < |init| ==> init[k] == ps[k];
    }
  }

  /** Moving pairs into contact never lowers the count. */
  lemma {:induction false} CountTouchingMonotone(left: Hand, right: Hand, left': Hand, right': Hand, ps: seq<Pair>)
    requires forall k :: 0 <= k < |ps| ==> Touching(left, right, ps[k]) ==> Touching(left', right', ps[k])
    ensures CountTouching(left, right, ps) <= CountTouching(left', right', ps)
  {
    if ps != [] {
      var init := ps[..|ps| - 1];
      assert forall k :: 0 <= k < |init| ==> init[k] == ps[k];
      CountTouchingMonotone(left, right, left', right', init);
    }
  }

  /** The score is monotone in the contacts: more of the seven pairs touching, never a lower score. */
  lemma ContactCountMonotone(left: Hand, right: Hand, left': Hand, right': Hand)
    requires forall p :: p in ContactPairs ==> Touching(left, right, p) ==> Touching(left', right', p)
    ensures ContactCount(left, right) <= ContactCount(left', right')
  {
    CountTouchingMonotone(left, right, left', right', ContactPairs);
  }

  /** A missing landmark never counts: a hand with no landmarks scores zero. */
  lemma EmptyHandNoContact(left: Hand, right: Hand)
    requires forall i :: 0 <= i < |left| ==> left[i].None?
    ensures ContactCount(left, right) == 0
  {
    CountTouchingExtremes(left, right, ContactPairs);
  }

  /** Seven pairs in contact is the same as the top score. */
  lemma FullContact(left: Hand, right: Hand)
    ensures ContactCount(left, right) == 7 <==> forall p :: p in ContactPairs ==> Touching(left, right, p)
  {
    CountTouchingExtremes(left, right, ContactPairs);
  }

  /** Appending one pair adds that pair's contribution. */
  lemma CountTouchingSnoc(left: Hand, right: Hand, ps: seq<Pair>, p: Pair)
    ensures CountTouching(left, right, ps + [p]) == CountTouching(left, right, ps) + Contribution(left, right, p)
  {
    assert (ps + [p])[..|ps|] == ps;
  }

  /** Swapping the hands maps each pair to its mirror, and the distance is symmetric. */
  lemma ContributionSwap(left: Hand, right: Hand, p: Pair)
    ensures Contribution(left, right, p) == Contribution(right, left, Pair(p.r, p.l))
  {
    if At(left, p.l).Some? && At(right, p.r).Some? {
      var a, b := At(left, p.l).value, At(right, p.r).value;
      assert DistSq(a, b) == DistSq(b, a);
    }
  }

  /** The score of the seven pairs written out as a sum, one term per pair. */
  lemma ContactCountUnfolded(left: Hand, right: Hand)
    ensures ContactCount(left, right) ==
      Contribution(left, right, Pair(0, 0)) + Contribution(left, right, Pair(5, 5)) +
      Contribution(left, right, Pair(9, 9)) + Contribution(left, right, Pair(8, 0)) +
      Contribution(left, right, Pair(0, 8)) + Contribution(left, right, Pair(5, 17)) +
      Contribution(left, right, Pair(17, 5))
  {
    var s1 := [Pair(0, 0)];
    var s2 := s1 + [Pair(5, 5)];
    var s3 := s2 + [Pair(9, 9)];
    var s4 := s3 + [Pair(8, 0)];
    var s5 := s4 + [Pair(0, 8)];
    var s6 := s5 + [Pair(5, 17)];
    var s7 := s6 + [Pair(17, 5)];
    assert s7 == ContactPairs;
    assert [] + [Pair(0, 0)] == s1;
    CountTouchingSnoc(left, right, [], Pair(0, 0));
    CountTouchingSnoc(left, right, s1, Pair(5, 5));
    CountTouchingSnoc(left, right, s2, Pair(9, 9));
    CountTouchingSnoc(left, right, s3, Pair(8, 0));
    CountTouchingSnoc(left, right, s4, Pair(0, 8));
    CountTouchingSnoc(left, right, s5, Pair(5, 17));
    CountTouchingSnoc(left, right, s6, Pair(17, 5));
  }

  /** The pair list is closed under swapping the hands, so the score does not depend on hand order. */
  lemma ContactCountSymmetric(left: Hand, right: Hand)
    ensures ContactCount(left, right) == ContactCount(right, left)
  {
    ContactCountUnfolded(left, right);
    ContactCountUnfolded(right, left);
    ContributionSwap(left, right, Pair(0, 0));
    ContributionSwap(left, right, Pair(5, 5));
    ContributionSwap(left, right, Pair(9, 9));
    ContributionSwap(left, right, Pair(8, 0));
    ContributionSwap(left, right, Pair(0, 8));
    ContributionSwap(left, right, Pair(5, 17));
    ContributionSwap(left, right, Pair(17, 5));
  }

  /** Moving both hands together leaves every distance, and so the score, unchanged. */
  lemma ContactCountTranslation(left: Hand, right: Hand, dx: real, dy: real, dz: real)
    ensures ContactCount(Shift(left, dx, dy, dz), Shift(right, dx, dy, dz)) == ContactCount(left, right)
  {
    var left', right' := Shift(left, dx, dy, dz), Shift(right, dx, dy, dz);
    forall p: Pair ensures Touching(left, right, p) == Touching(left', right', p) {
      ShiftAt(left, dx, dy, dz, p.l);
      ShiftAt(right, dx, dy, dz, p.r);
      if At(left, p.l).Some? && At(right, p.r).Some? {
        var a, b := At(left, p.l).value, At(right, p.r).value;
        assert DistSq(Move(a, dx, dy, dz), Move(b, dx, dy, dz)) == DistSq(a, b);
      }
    }
    ContactCountMonotone(left, right, left', right');
    ContactCountMonotone(left', right', left, right);
  }
}
