/**
 * The per-tick session controller (main.js:211-288): the hand-presence latch
 * behind the "show both hands" prompt, the washing timer and the completion
 * latch. Every tick receives the landmarks of zero, one or two hands and the
 * current time `now` in milliseconds.
 */
module Session {
  import opened Wrappers
  import opened Landmarks
  import opened Contact
  import opened CircularMotion
  import opened PalmOrientation
  import opened Washing
  import opened Progress
  import opened Speech

  const ShowHandsPrompt: string := "Show both hands to the camera"
  const BothHandsPrompt: string := "Please show both hands"
  const CompletionText: string := "Excellent! You have completed 20 seconds of proper hand washing"

  /** Hands unseen for longer than this, in milliseconds, bring the "show both hands" prompt. */
  const AbsenceMs: int := 2000

  /** What the progress box does on a tick. */
  datatype ProgressDisplay =
    | ShowProgress(percent: real, secondsRemaining: real)
    | HideProgress
    | KeepProgress

  /** What one tick asks of the outside world. */
  datatype TickReport = TickReport(
    request: Option<string>,        // the text handed to the speech gate, if any
    spoke: bool,                    // whether the gate let it through
    progress: ProgressDisplay,
    assessment: Option<Assessment>, // the verdict shown in the debug box
    completed: bool)                // "Good Job!" was shown on this tick

  /** JavaScript truthiness of `rubbingStartTime`: `null` and `0` both read as unset. */
  predicate Truthy(t: Option<int>)
  {
    t.Some? && t.value != 0
  }

  class Coach {
    const speech: SpeechGate
    const motion: MotionTracker
    var rubbingStartTime: Option<int>
    var showGoodJob: bool
    var lastHandSeenTime: int
    var hasAnnouncedShowHands: bool

    /** The clock never runs backwards, so a running timer started no later than the last sighting. */
    ghost predicate Valid()
      reads this
    {
      && lastHandSeenTime >= 0
      && (rubbingStartTime.Some? ==> rubbingStartTime.value <= lastHandSeenTime)
    }

    constructor (speechAvailable: bool, atan2: (real, real) -> real)
      ensures Valid()
      ensures fresh(speech) && fresh(motion)
      ensures speech.available == speechAvailable && !speech.speaking && speech.lastSpokenText == ""
      ensures motion.atan2 == atan2 && motion.State() == TrackerState(None, [])
      ensures rubbingStartTime == None && !showGoodJob
      ensures lastHandSeenTime == 0 && !hasAnnouncedShowHands
    {
      speech := new SpeechGate(speechAvailable);
      motion := new MotionTracker(atan2);
      rubbingStartTime := None;
      showGoodJob := false;
      lastHandSeenTime := 0;
      hasAnnouncedShowHands := false;
    }

    /**
     * `detectRealHandWashing(hands, now)` on hands 0 and 1: the contact score,
     * one step of the motion detector, the palm verdict, and their weighing.
     */
    method DetectRealHandWashing(left: Hand, right: Hand, now: int) returns (a: Assessment)
      modifies motion
      ensures var t := Track(old(motion.State()), motion.atan2, left, right, now);
        && motion.State() == t.next
        && a == Aggregate(ContactCount(left, right), t.circular, PalmsFacing(left, right))
    {
      var contactScore := ContactScore(left, right);
      var circular := motion.Detect(left, right, now);
      var orientation := PalmsFacing(left, right);
      a := Aggregate(contactScore, circular, orientation);
    }

    /** What a tick that sees no hands does (`handleNoHandsDetected`, main.js:232-243). */
    twostate predicate NoHandsStep(now: int, r: TickReport)
      reads this, speech, motion
    {
      var prompt := now - old(lastHandSeenTime) > AbsenceMs && !old(hasAnnouncedShowHands);
      // the prompt is requested once hands have been gone over 2 s, unless already requested;
      // the latch is set whenever it is requested, even if the gate drops it
      && r.request == (if prompt then Some(ShowHandsPrompt) else None)
      && r.spoke == (prompt && Announces(speech.available, old(speech.speaking), old(speech.lastSpokenText), ShowHandsPrompt))
      && hasAnnouncedShowHands == (old(hasAnnouncedShowHands) || prompt)
      && (r.spoke ==> speech.speaking && speech.lastSpokenText == ShowHandsPrompt)
      && (!r.spoke ==> speech.speaking == old(speech.speaking) && speech.lastSpokenText == old(speech.lastSpokenText))
      // the timer stops and the progress box is hidden; nothing else changes
      && r.progress == HideProgress && r.assessment == None && !r.completed
      && rubbingStartTime == None
      && lastHandSeenTime == old(lastHandSeenTime) && showGoodJob == old(showGoodJob)
      && motion.State() == old(motion.State())
    }

    /** What a tick that sees one or more hands does (`handleHandsDetected`, main.js:245-288). */
    twostate predicate HandsStep(hands: seq<Hand>, now: int, r: TickReport)
      reads this, speech, motion
    {
      && lastHandSeenTime == now && !hasAnnouncedShowHands
      && (!r.spoke ==> speech.speaking == old(speech.speaking) && speech.lastSpokenText == old(speech.lastSpokenText))
      && (r.spoke ==> speech.speaking && Some(speech.lastSpokenText) == r.request)
      && (r.progress.ShowProgress? ==> 0.0 <= r.progress.percent <= 100.0 && r.progress.secondsRemaining >= 0.0)
      // fewer than two hands: ask for both, and leave timer, latch, detector and progress box alone
      && (|hands| < 2 ==>
        && r == TickReport(Some(BothHandsPrompt),
                           Announces(speech.available, old(speech.speaking), old(speech.lastSpokenText), BothHandsPrompt),
                           KeepProgress, None, false)
        && rubbingStartTime == old(rubbingStartTime) && showGoodJob == old(showGoodJob)
        && motion.State() == old(motion.State()))
      // two hands: one step of the classifier
      && (|hands| >= 2 ==>
        var t := Track(old(motion.State()), motion.atan2, hands[0], hands[1], now);
        var a := Aggregate(ContactCount(hands[0], hands[1]), t.circular, PalmsFacing(hands[0], hands[1]));
        && motion.State() == t.next
        && r.assessment == Some(a)
        // not washing: the timer stops and nothing is said
        && (!a.isWashing ==>
          && rubbingStartTime == None && showGoodJob == old(showGoodJob)
          && r.request == None && !r.spoke && r.progress == HideProgress && !r.completed)
        // washing: the timer starts if unset (null and 0 both read as unset), progress is shown,
        // and completion fires once past 20 s unless "Good Job!" is still showing
        && (a.isWashing ==>
          && (Truthy(old(rubbingStartTime)) ==> rubbingStartTime == old(rubbingStartTime))
          && (old(rubbingStartTime) == None ==> rubbingStartTime == Some(now))
          && (old(rubbingStartTime) == Some(0) ==> rubbingStartTime == Some(now))
          && rubbingStartTime.Some?
          && var elapsed := now - rubbingStartTime.value;
          && 0 <= elapsed
          && r.progress == ShowProgress(PercentComplete(elapsed, WashDurationMs), SecondsRemaining(elapsed, WashDurationMs))
          && r.completed == (elapsed > WashDurationMs && !old(showGoodJob))
          && showGoodJob == (old(showGoodJob) || r.completed)
          && r.request == (if r.completed then Some(CompletionText) else None)
          && r.spoke == (r.completed && Announces(speech.available, old(speech.speaking), old(speech.lastSpokenText), CompletionText))))
    }

    /** `handleNoHandsDetected()`: prompt once per absence, and stop the timer. */
    method NoHandsDetected(now: int) returns (r: TickReport)
      requires Valid() && now >= lastHandSeenTime
      modifies this, speech
      ensures Valid()
      ensures NoHandsStep(now, r)
    {
      r := TickReport(None, false, HideProgress, None, false);
      if now - lastHandSeenTime > AbsenceMs && !hasAnnouncedShowHands {
        var spoke := speech.Speak(ShowHandsPrompt);
        hasAnnouncedShowHands := true;
        r := r.(request := Some(ShowHandsPrompt), spoke := spoke);
      }
      rubbingStartTime := None;
    }

    /** `handleHandsDetected(hands)`: note the sighting, then classify when both hands are there. */
    method HandsDetected(hands: seq<Hand>, now: int) returns (r: TickReport)
      requires Valid() && now >= lastHandSeenTime
      modifies this, speech, motion
      ensures Valid()
      ensures HandsStep(hands, now, r)
    {
      lastHandSeenTime := now;
      hasAnnouncedShowHands := false;
      if |hands| < 2 {
        var spoke := speech.Speak(BothHandsPrompt);
        return TickReport(Some(BothHandsPrompt), spoke, KeepProgress, None, false);
      }
      var washing := DetectRealHandWashing(hands[0], hands[1], now);
      if washing.isWashing {
        if !Truthy(rubbingStartTime) {
          rubbingStartTime := Some(now);
        }
        var elapsed := now - rubbingStartTime.value;
        var progress := ShowProgress(PercentComplete(elapsed, WashDurationMs), SecondsRemaining(elapsed, WashDurationMs));
        r := TickReport(None, false, progress, Some(washing), false);
        if elapsed > WashDurationMs && !showGoodJob {
          showGoodJob := true;
          var spoke := speech.Speak(CompletionText);
          r := r.(request := Some(CompletionText), spoke := spoke, completed := true);
        }
      } else {
        rubbingStartTime := None;
        r := TickReport(None, false, HideProgress, Some(washing), false);
      }
    }

    /** The hand loop's dispatch (main.js:221-227): no landmarks at all, or some hands. */
    method Tick(hands: seq<Hand>, now: int) returns (r: TickReport)
      requires Valid() && now >= lastHandSeenTime
      modifies this, speech, motion
      ensures Valid()
      ensures |hands| == 0 ==> NoHandsStep(now, r)
      ensures |hands| > 0 ==> HandsStep(hands, now, r)
    {
      if |hands| == 0 {
        r := NoHandsDetected(now);
      } else {
        r := HandsDetected(hands, now);
      }
    }

    /**
     * The hand loop over a stretch of ticks that see no hands: the "show both
     * hands" prompt is requested at most once, and not at all when it was
     * already requested during this absence.
     */
    method Absence(times: seq<int>) returns (prompts: nat)
      requires Valid()
      requires forall i :: 0 <= i < |times| ==> lastHandSeenTime <= times[i]
      modifies this, speech, motion
      ensures Valid()
      ensures prompts <= 1
      ensures old(hasAnnouncedShowHands) ==> prompts == 0
      ensures prompts == 1 ==> hasAnnouncedShowHands
      ensures lastHandSeenTime == old(lastHandSeenTime) && showGoodJob == old(showGoodJob)
      ensures |times| > 0 ==> rubbingStartTime == None
    {
      prompts := 0;
      var i := 0;
      while i < |times|
        invariant 0 <= i <= |times|
        invariant Valid()
        invariant lastHandSeenTime == old(lastHandSeenTime) && showGoodJob == old(showGoodJob)
        invariant prompts <= 1
        invariant prompts == 1 ==> hasAnnouncedShowHands
        invariant old(hasAnnouncedShowHands) ==> hasAnnouncedShowHands && prompts == 0
        invariant i > 0 ==> rubbingStartTime == None
      {
        var r := Tick([], times[i]);
        if r.request.Some? {
          prompts := prompts + 1;
        }
        i := i + 1;
      }
    }

    /** The 3-second timeout scheduled on completion: it hides "Good Job!" and re-arms the latch. */
    method GoodJobTimeout()
      requires Valid()
      modifies this
      ensures Valid()
      ensures !showGoodJob
      ensures rubbingStartTime == old(rubbingStartTime) && lastHandSeenTime == old(lastHandSeenTime)
      ensures hasAnnouncedShowHands == old(hasAnnouncedShowHands)
    {
      showGoodJob := false;
    }
  }
}
