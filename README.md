# Hand-wash classifier: a Dafny model

This project models the classifier of a browser hand-washing coach. A hand tracker
reports up to two hands per tick, each as an array of 3D landmarks. On every tick
(`main.js`) the coach does four things:

- It scores the hands on three criteria:
  - contact between seven fixed landmark pairs;
  - circular motion of the wrists' midpoint over a one-second window;
  - palms facing each other.
- It weighs the three criteria (40/35/25) into a confidence. It calls the hands
  washing from 60 on.
- It runs a washing timer. After 20 seconds of washing it shows "Good Job!" and
  announces completion. A 3-second timeout hides the message again.
- It asks for both hands when it sees only one. After more than 2 seconds with no
  hands, it prompts once.

Speech passes through a gate. The gate allows one utterance at a time and never
repeats the last text.

The modules follow the source's pieces:

- `Landmarks`: landmarks and hands. A missing landmark (a hole or an index past the
  end) reads as `None`.
- `Contact`: the contact scorer, as a loop method proved against a counting function.
- `CircularMotion`: the motion detector.
  - `Track` is a function of the old state.
  - The `MotionTracker` class holds `lastCenter` and `motionHistory`. Its `Detect`
    method is proved to agree with `Track`.
  - The direction-change loop is proved against `DirectionChanges`.
- `PalmOrientation`: the wrist-to-knuckle-midpoint vectors and their dot product.
- `Washing`: the weighted verdict.
- `Progress`: the percentage and remaining-time arithmetic of the progress box.
- `Speech`: the speech gate (`speaking`, `lastSpokenText`, and the `onend` event).
- `Session`: the `Coach` class.
  - It holds `rubbingStartTime`, `showGoodJob`, `lastHandSeenTime` and
    `hasAnnouncedShowHands`.
  - It owns one speech gate and one motion tracker.
  - Each tick is a method call with the current time `now`. Each report says what
    was asked of the speech engine and of the progress box.

Behaviour of the code that the contracts make explicit:

- `rubbingStartTime` is tested with JavaScript truthiness. A start time of `0` counts
  as unset, like `null` (`Session.Truthy`). `Session.Coach.HandsDetected` states both
  cases.
- The "show both hands to the camera" latch is set whenever the prompt is requested.
  This holds even when the speech gate drops the prompt.
- With exactly one hand, the washing timer, the completion latch, the motion
  detector and the progress box are all left as they were.
- A completion does not reset `rubbingStartTime`. So once the 3-second timeout clears
  `showGoodJob`, continued washing completes again on the next washing tick.
- The motion detector's first sample never counts as a direction change. The loop
  starts `lastA` at that sample's own heading.
- The palm vector is not a cross product and is not normalised. Each hand's vector
  runs from the wrist to the midpoint of the index and pinky knuckles.
- The code has no hysteresis stabiliser: each tick's verdict is used as it is. The
  palm test uses no cross product or normal. Guidance is not priority-ordered. Speech
  callbacks carry no session tag. The model has none of these either.

## Model

| member | source | states |
|---|---|---|
| Landmarks.At | main.js:347-349 | a landmark is present exactly when its index is in range and the entry is not a hole |
| Contact.CountTouching | main.js:345-355 | the number of touching pairs never exceeds the number of pairs visited |
| Contact.ContactCount | main.js:331-356 | the contact score lies in [0,7] |
| Contact.ContactScore | main.js:331-356 | the scorer's loop returns exactly the number of the seven pairs with both landmarks present and squared distance below 0.15², skipping pairs with a missing landmark |
| Contact.CountTouchingExtremes | main.js:345-355 | the count equals the number of pairs iff every pair touches, and is zero iff no pair touches |
| Contact.CountTouchingMonotone | main.js:346-353 | if every pair that touches still touches after a change, the count does not drop |
| Contact.ContactCountMonotone | main.js:335-355 | if every one of the seven pairs that touches still touches after a change, the contact score does not drop |
| Contact.EmptyHandNoContact | main.js:347-349 | missing landmarks are never counted: a hand with no landmarks scores 0 |
| Contact.FullContact | main.js:335-355 | the score is 7 iff all seven pairs touch |
| Contact.ContactCountSymmetric | main.js:335-343 | the pair list is closed under swapping the hands, so the score does not depend on which hand is hand 0 |
| Contact.ContactCountTranslation | main.js:351-352 | moving both hands by the same offset leaves the score unchanged |
| CircularMotion.Prune | main.js:377 | after pruning, every sample satisfies now - time < 1000, and the window never grows |
| CircularMotion.PruneMembers | main.js:377 | a sample survives pruning iff it was in the window and is recent |
| CircularMotion.PruneAppend | main.js:376-377 | pruning distributes over concatenation, so the survivors keep their relative order |
| CircularMotion.DirectionChanges | main.js:383-396 | a window of n > 0 samples has fewer than n direction changes |
| CircularMotion.DirectionChangesCountsTurns | main.js:383-396 | the direction-change count equals the number of positions i >= 1 where the heading jumps by more than pi/3 and abs(dx)+abs(dy) > 0.01 |
| CircularMotion.CircularIff | main.js:381-396 | a window is circular iff it holds at least 6 samples and at least 3 direction-change positions |
| CircularMotion.SteadyHeadingNotCircular | main.js:387-389 | a window whose heading never jumps by more than pi/3 (straight-line motion) is never circular |
| CircularMotion.JitterNotCircular | main.js:389 | a window whose displacements all stay within the 0.01 motion floor is never circular |
| CircularMotion.TurningEveryStep | main.js:383-396 | a window that turns at every step has n-1 direction changes, and is circular from 6 samples on |
| CircularMotion.TrackMissingWrist | main.js:359-362 | a missing wrist on either hand gives false and changes no state |
| CircularMotion.TrackStoresCenter | main.js:364-379 | with both wrists seen, the stored centre becomes their midpoint; on the first call the verdict is false and the history is untouched |
| CircularMotion.Track | main.js:358-397 | one call of the detector as a function of the old state: a true verdict needs both wrists, a stored centre and at least 6 samples in the window |
| CircularMotion.PrunePush | main.js:376-377 | pushing a sample stamped now and pruning gives the pruned old window followed by that sample |
| CircularMotion.TrackWindow | main.js:372-379 | after push and prune, the window is exactly the pruned old window, in order, followed by the sample just pushed: heading atan2(dy, dx) of the midpoint's displacement (dx, dy), time now; every sample in it is recent |
| CircularMotion.TrackVerdict | main.js:358-397 | the verdict is true iff both wrists are present, a previous centre existed, at least 6 samples remain and at least 3 positions change direction |
| CircularMotion.CountDirectionChanges | main.js:383-396 | the counting loop, with lastA starting at the first sample's own heading, returns exactly DirectionChanges of the window |
| CircularMotion.MotionTracker.constructor | main.js:29-30 | the detector starts with no centre and an empty history |
| CircularMotion.MotionTracker.Detect | main.js:358-397 | the new lastCenter and motionHistory and the verdict are exactly those of Track on the old state |
| PalmOrientation.PalmVector | main.js:417-432 | a vector exists iff landmarks 0, 5 and 17 are present, and it is the mean of the wrist-to-index and wrist-to-pinky edges |
| PalmOrientation.PalmsFacing | main.js:400-415 | the palms can face each other only when wrist, index knuckle and pinky knuckle are present on both hands |
| PalmOrientation.PalmsFacingIff | main.js:400-415 | the palms face each other iff all six needed landmarks are present and the dot product of the two vectors is below -0.2 |
| PalmOrientation.PalmsFacingSymmetric | main.js:409-414 | the orientation verdict does not depend on hand order |
| PalmOrientation.PalmVectorTranslation | main.js:423-431 | moving a hand does not change its palm vector |
| PalmOrientation.PalmsFacingTranslation | main.js:400-415 | moving either hand on its own does not change the orientation verdict |
| PalmOrientation.MirroredPalmsFacing | main.js:409-414 | mirror-image vectors with squared length above 0.2 always face each other |
| Washing.Aggregate | main.js:316-327 | the confidence lies in {0,25,35,40,60,65,75,100} and is at most 100; isWashing holds iff at least two criteria hold; the confidence is 100 iff all three hold |
| Washing.AggregateMonotone | main.js:316-322 | meeting more criteria never lowers the confidence or withdraws the verdict |
| Progress.PercentComplete | main.js:436 | the percentage is at most 100, non-negative for non-negative elapsed time, 100 exactly from the full duration on, and proportional to elapsed time before that |
| Progress.SecondsRemaining | main.js:437 | the remaining time is non-negative, zero exactly from the full duration on, and (total - elapsed)/1000 before that |
| Progress.ProgressMonotone | main.js:435-437 | as elapsed time grows, the percentage never falls and the remaining time never grows |
| Speech.Announces | main.js:113-116 | the gate never lets text through while an utterance is in flight, nor the same text as the last one, nor when speech is unavailable |
| Speech.SpeechGate.constructor | main.js:109-110 | the gate starts silent with an empty last text |
| Speech.SpeechGate.Speak | main.js:112-125 | speaks iff speech is available, nothing is in flight and the text differs from the last one; speaking sets speaking and lastSpokenText, otherwise nothing changes; speak never clears speaking |
| Speech.SpeechGate.OnEnd | main.js:123 | the end event clears speaking and keeps the last text |
| Session.Coach.constructor | main.js:22-30 | no timer, no completion, last sighting at 0, prompt latch clear, fresh detector and speech gate |
| Session.Coach.DetectRealHandWashing | main.js:311-328 | the verdict weighs the contact score, one motion-detector step and the palm verdict, and the detector moves to Track's next state |
| Session.Coach.NoHandsDetected | main.js:232-243 | (NoHandsStep) prompts iff hands were last seen more than 2000 ms ago and the latch is clear; sets the latch whenever it prompts; always clears the timer and hides progress; the last sighting, completion latch and detector are unchanged |
| Session.Coach.HandsDetected | main.js:245-288 | (HandsStep) records the sighting and clears the latch; with fewer than two hands it asks for both and leaves the timer, latch, detector and progress alone; otherwise the verdict is one classifier step; not washing stops the timer; washing keeps a truthy start time and replaces null or 0 by now, shows progress in [0,100] with remaining time >= 0, and fires completion iff elapsed > 20000 and the latch was clear, latching it |
| Session.Coach.Tick | main.js:221-227 | an empty landmark list has exactly the no-hands effect; any hands have exactly the hands-detected effect |
| Session.Coach.Absence | main.js:236-238 | over any run of hand-loop ticks without hands the prompt is requested at most once, and not at all if already requested in this absence |
| Session.Coach.GoodJobTimeout | main.js:279-282 | the timeout clears showGoodJob and changes nothing else |

## Left out

- Rendering, overlays, the camera and the hand tracker are left out (main.js:19-105,
  132-208, 290-308, 444-453). These are the Three.js scene, the DOM boxes, hand
  drawing, `getUserMedia` and the MediaPipe `HandLandmarker`. The landmark arrays
  are an input.
- The hand loop's readiness guard is left out (main.js:213). It checks that the
  tracker is loaded and the video is ready, which are camera state.
- `setInterval` and `setTimeout` are left out. Each tick is a method call. The
  timeout's expiry is the explicit `GoodJobTimeout` event, and the utterance's end is
  `SpeechGate.OnEnd`.
- The model only tracks whether an utterance was started. Actual speech playback,
  `console.log`, the debug and inference text, and `toFixed` formatting are left out.
- `lastUpdateTime` (main.js:23) is left out. It is never read.
- Floating point is left out. Coordinates and arithmetic are exact reals.
  - `Math.hypot(d) < 0.15` is squared distance below 0.15².
  - `Math.PI` is the decimal 3.141592653589793.
  - `Math.atan2` is a function supplied to the motion tracker. Its values are not
    modelled.
- Time is whole milliseconds. `performance.now()` is a `now` parameter.
  - `handleHandsDetected` reads the clock twice. The model uses one `now` for both
    reads.
- Session.Coach.NoHandsDetected: requires `now >= lastHandSeenTime`, because
  `performance.now()` is monotonic. Session.Coach.HandsDetected, Session.Coach.Tick
  and Session.Coach.Absence require the same.
- Progress.PercentComplete: requires a positive total, because the only caller passes
  20000. Division by zero is not modelled.
- Session.Coach.DetectRealHandWashing and the motion detector take hands 0 and 1
  only. The tracker is configured for at most two hands.
