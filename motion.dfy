/**
 * The circular-motion detector (`detectCircularMotion`, main.js:358-397).
 * It follows the midpoint of the two wrists from tick to tick, keeps the
 * headings of its recent displacements in a one-second window, and reports
 * circular rubbing when the heading turns sharply often enough.
 */
module CircularMotion {
  import opened Wrappers
  import opened Landmarks

  /** The midpoint of the two wrists in the image plane. */
  datatype Center = Center(cx: real, cy: real)

  /** One displacement of the midpoint: its heading, when it was seen, and its components. */
  datatype MotionSample = MotionSample(angle: real, time: int, dx: real, dy: real)

  /** The detector's module state: `lastCenter` and `motionHistory`. */
  datatype TrackerState = TrackerState(lastCenter: Option<Center>, history: seq<MotionSample>)

  /** The state after one call and the call's verdict. */
  datatype Tracked = Tracked(next: TrackerState, circular: bool)

  /** Samples older than this many milliseconds are dropped. */
  const WindowMs: int := 1000
  /** Fewer samples than this in the window: never circular. */
  const MinSamples: nat := 6
  /** Direction changes needed in the window. */
  const MinDirectionChanges: nat := 3
  /** The smallest displacement `|dx| + |dy|` that can count as a direction change. */
  const MinMotion: real := 0.01
  /** `Math.PI` as a decimal. */
  const Pi: real := 3.141592653589793

  function Abs(v: real): real { if v < 0.0 then -v else v }

  function Midpoint(a: Landmark, b: Landmark): (c: Center)
  {
    Center((a.x + b.x) / 2.0, (a.y + b.y) / 2.0)
  }

  /** A sample is still in the window at time `now`. */
  predicate Recent(s: MotionSample, now: int)
  {
    now - s.time < WindowMs
  }

  /** `history.filter(p => now - p.time < 1000)`. */
  function Prune(h: seq<MotionSample>, now: int): (w: seq<MotionSample>)
    ensures |w| <= |h|
    ensures forall i :: 0 <= i < |w| ==> Recent(w[i], now)
  {
    if h == [] then []
    else (if Recent(h[0], now) then [h[0]] else []) + Prune(h[1..], now)
  }

  /** A sample survives pruning exactly when it was in the window and is recent. */
  lemma {:induction false} PruneMembers(h: seq<MotionSample>, now: int, x: MotionSample)
    ensures x in Prune(h, now) <==> x in h && Recent(x, now)
  {
    if h != [] {
      PruneMembers(h[1..], now, x);
      assert h == [h[0]] + h[1..];
    }
  }

  /** Pruning is applied element by element, so it keeps the order of what survives. */
  lemma {:induction false} PruneAppend(a: seq<MotionSample>, b: seq<MotionSample>, now: int)
    ensures Prune(a + b, now) == Prune(a, now) + Prune(b, now)
  {
    if a != [] {
      var head := if Recent(a[0], now) then [a[0]] else [];
      assert (a + b)[0] == a[0];
      assert (a + b)[1..] == a[1..] + b;
      PruneAppend(a[1..], b, now);
      calc {
        Prune(a + b, now);
        head + Prune(a[1..] + b, now);
        head + (Prune(a[1..], now) + Prune(b, now));
        (head + Prune(a[1..], now)) + Prune(b, now);
        Prune(a, now) + Prune(b, now);
      }
    } else {
      assert a + b == b;
    }
  }

  /** A direction change: the heading moved by more than 60 degrees, over a real displacement. */
  predicate IsTurn(prev: MotionSample, cur: MotionSample)
  {
    Abs(cur.angle - prev.angle) > Pi / 3.0 && Abs(cur.dx) + Abs(cur.dy) > MinMotion
  }

  /** The number of direction changes between consecutive samples of `w`. */
  function DirectionChanges(w: seq<MotionSample>): (n: nat)
    ensures |w| > 0 ==> n < |w|
  {
    if |w| <= 1 then 0
    else DirectionChanges(w[..|w| - 1]) + (if IsTurn(w[|w| - 2], w[|w| - 1]) then 1 else 0)
  }

  /** Sample `i` changes direction relative to the sample before it. */
  predicate TurnAt(w: seq<MotionSample>, i: nat)
    requires 1 <= i < |w|
  {
    IsTurn(w[i - 1], w[i])
  }

  /** The positions at which `w` changes direction; the first sample is never one. */
  function TurnIndices(w: seq<MotionSample>): set<nat>
  {
    set i: nat | 1 <= i < |w| && TurnAt(w, i)
  }

  /** The count is the number of positions i >= 1 that change direction. */
  lemma {:induction false} DirectionChangesCountsTurns(w: seq<MotionSample>)
    ensures DirectionChanges(w) == |TurnIndices(w)|
  {
    if |w| <= 1 {
      assert TurnIndices(w) == {};
    } else {
      var n := |w|;
      var init := w[..n - 1];
      DirectionChangesCountsTurns(init);
      var extra: set<nat> := if IsTurn(w[n - 2], w[n - 1]) then {n - 1} else {};
      assert TurnIndices(w) == TurnIndices(init) + extra;
      assert n - 1 !in TurnIndices(init);
    }
  }

  /** The verdict on a pruned window. */
  predicate Circular(w: seq<MotionSample>)
  {
    |w| >= MinSamples && DirectionChanges(w) >= MinDirectionChanges
  }

  /** A window is circular iff it holds six samples and three positions that change direction. */
  lemma CircularIff(w: seq<MotionSample>)
    ensures Circular(w) <==> |w| >= MinSamples && |TurnIndices(w)| >= MinDirectionChanges
  {
    DirectionChangesCountsTurns(w);
  }

  /** A window that keeps its heading (a straight-line motion) is never circular. */
  lemma SteadyHeadingNotCircular(w: seq<MotionSample>)
    requires forall i :: 1 <= i < |w| ==> Abs(w[i].angle - w[i - 1].angle) <= Pi / 3.0
    ensures !Circular(w)
  {
    DirectionChangesCountsTurns(w);
    assert TurnIndices(w) == {};
  }

  /** A window of jitter below the motion floor is never circular. */
  lemma JitterNotCircular(w: seq<MotionSample>)
    requires forall i :: 0 <= i < |w| ==> Abs(w[i].dx) + Abs(w[i].dy) <= MinMotion
    ensures !Circular(w)
  {
    DirectionChangesCountsTurns(w);
    assert TurnIndices(w) == {};
  }

  /** A window that turns at every step has one direction change per step. */
  lemma {:induction false} TurningEveryStep(w: seq<MotionSample>)
    requires |w| > 0
    requires forall i :: 1 <= i < |w| ==> IsTurn(w[i - 1], w[i])
    ensures DirectionChanges(w) == |w| - 1
    ensures |w| >= MinSamples ==> Circular(w)
  {
    if |w| > 1 {
      var init := w[..|w| - 1];
      TurningEveryStep(init);
    }
  }

  /** The displacement sample a call with both wrists seen and a stored centre pushes. */
  function PushedSample(s: TrackerState, atan2: (real, real) -> real, left: Hand, right: Hand, now: int): MotionSample
    requires At(left, 0).Some? && At(right, 0).Some? && s.lastCenter.Some?
  {
    var c := Midpoint(At(left, 0).value, At(right, 0).value);
    var dx := c.cx - s.lastCenter.value.cx;
    var dy := c.cy - s.lastCenter.value.cy;
    MotionSample(atan2(dy, dx), now, dx, dy)
  }

  /**
   * One call of the detector on the two hands at time `now`, as a function of
   * the state before it; `atan2` is `Math.atan2`.
   */
  function Track(s: TrackerState, atan2: (real, real) -> real, left: Hand, right: Hand, now: int): (t: Tracked)
    ensures t.circular ==> At(left, 0).Some? && At(right, 0).Some? && s.lastCenter.Some?
    ensures t.circular ==> |t.next.history| >= MinSamples
  {
    if At(left, 0).None? || At(right, 0).None? then Tracked(s, false)
    else
      var c := Midpoint(At(left, 0).value, At(right, 0).value);
      match s.lastCenter
      case None => Tracked(TrackerState(Some(c), s.history), false)
      case Some(last) =>
        var w := Prune(s.history + [PushedSample(s, atan2, left, right, now)], now);
        Tracked(TrackerState(Some(c), w), Circular(w))
  }

  /** A missing wrist: no verdict and no change of state. */
  lemma TrackMissingWrist(s: TrackerState, atan2: (real, real) -> real, left: Hand, right: Hand, now: int)
    requires At(left, 0).None? || At(right, 0).None?
    ensures Track(s, atan2, left, right, now) == Tracked(s, false)
  {
  }

  /** Whenever both wrists are seen, the stored centre becomes their midpoint. */
  lemma TrackStoresCenter(s: TrackerState, atan2: (real, real) -> real, left: Hand, right: Hand, now: int)
    requires At(left, 0).Some? && At(right, 0).Some?
    ensures Track(s, atan2, left, right, now).next.lastCenter == Some(Midpoint(At(left, 0).value, At(right, 0).value))
    ensures s.lastCenter.None? ==>
      (Track(s, atan2, left, right, now) ==
       Tracked(TrackerState(Some(Midpoint(At(left, 0).value, At(right, 0).value)), s.history), false))
  {
  }

  /** Pushing a sample stamped `now` and pruning keeps the pushed sample, last. */
  lemma PrunePush(h: seq<MotionSample>, x: MotionSample, now: int)
    requires x.time == now
    ensures Prune(h + [x], now) == Prune(h, now) + [x]
  {
    PruneAppend(h, [x], now);
    assert Prune([x], now) == [x];
  }

  /**
   * After a sample is pushed and the window pruned: the new window is the
   * pruned old window, in order, followed by the sample just pushed, whose
   * heading is `atan2(dy, dx)` of the midpoint's displacement; everything in
   * it is recent.
   */
  lemma TrackWindow(s: TrackerState, atan2: (real, real) -> real, left: Hand, right: Hand, now: int)
    requires At(left, 0).Some? && At(right, 0).Some? && s.lastCenter.Some?
    ensures var c := Midpoint(At(left, 0).value, At(right, 0).value);
      var dx := c.cx - s.lastCenter.value.cx;
      var dy := c.cy - s.lastCenter.value.cy;
      var w := Track(s, atan2, left, right, now).next.history;
      && w == Prune(s.history, now) + [MotionSample(atan2(dy, dx), now, dx, dy)]
      && (forall i :: 0 <= i < |w| ==> now - w[i].time < WindowMs)
  {
    var x := PushedSample(s, atan2, left, right, now);
    PrunePush(s.history, x, now);
    assert Track(s, atan2, left, right, now).next.history == Prune(s.history, now) + [x];
  }

  /** The verdict is true only with six recent samples of which three change direction. */
  lemma TrackVerdict(s: TrackerState, atan2: (real, real) -> real, left: Hand, right: Hand, now: int)
    ensures var t := Track(s, atan2, left, right, now);
      t.circular <==>
        && At(left, 0).Some? && At(right, 0).Some? && s.lastCenter.Some?
        && |t.next.history| >= MinSamples
        && |TurnIndices(t.next.history)| >= MinDirectionChanges
  {
    CircularIff(Track(s, atan2, left, right, now).next.history);
  }

  /** The loop that counts direction changes; `lastA` starts at the first sample's own heading. */
  method CountDirectionChanges(w: seq<MotionSample>) returns (directionChanges: nat)
    requires |w| > 0
    ensures directionChanges == DirectionChanges(w)
  {
    directionChanges := 0;
    var lastA := w[0].angle;
    var i := 0;
    while i < |w|
      invariant 0 <= i <= |w|
      invariant lastA == w[if i == 0 then 0 else i - 1].angle
      invariant directionChanges == DirectionChanges(w[..i])
    {
      var p := w[i];
      assert w[..i + 1][..i] == w[..i];
      var diff := Abs(p.angle - lastA);
      if diff > Pi / 3.0 && Abs(p.dx) + Abs(p.dy) > MinMotion {
        directionChanges := directionChanges + 1;
      }
      lastA := p.angle;
      i := i + 1;
    }
    assert w[..i] == w;
  }

  /** The detector with its module state. */
  class MotionTracker {
    /** `Math.atan2(dy, dx)`, supplied from outside. */
    const atan2: (real, real) -> real
    var lastCenter: Option<Center>
    var motionHistory: seq<MotionSample>

    function State(): TrackerState
      reads this
    {
      TrackerState(lastCenter, motionHistory)
    }

    constructor (atan2: (real, real) -> real)
      ensures this.atan2 == atan2
      ensures State() == TrackerState(None, [])
    {
      this.atan2 := atan2;
      lastCenter := None;
      motionHistory := [];
    }

    /** `detectCircularMotion(hands, now)` on hands 0 and 1. */
    method Detect(left: Hand, right: Hand, now: int) returns (circular: bool)
      modifies this
      ensures Tracked(State(), circular) == Track(old(State()), atan2, left, right, now)
    {
      ghost var s := State();
      var lw := At(left, 0);
      var rw := At(right, 0);
      if lw.None? || rw.None? {
        return false;
      }
      var c := Midpoint(lw.value, rw.value);
      if lastCenter.None? {
        lastCenter := Some(c);
        return false;
      }
      var dx := c.cx - lastCenter.value.cx;
      var dy := c.cy - lastCenter.value.cy;
      var angle := atan2(dy, dx);
      assert MotionSample(angle, now, dx, dy) == PushedSample(s, atan2, left, right, now);
      motionHistory := motionHistory + [MotionSample(angle, now, dx, dy)];
      motionHistory := Prune(motionHistory, now);
      lastCenter := Some(c);
      assert Track(s, atan2, left, right, now) ==
        Tracked(TrackerState(Some(c), motionHistory), Circular(motionHistory));
      if |motionHistory| < MinSamples {
        return false;
      }
      var directionChanges := CountDirectionChanges(motionHistory);
      circular := directionChanges >= MinDirectionChanges;
    }
  }
}
