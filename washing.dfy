/**
 * The verdict of one tick (`detectRealHandWashing`, main.js:311-328): three
 * criteria are weighted 40, 35 and 25, and the hands are washing when the
 * confidence reaches 60.
 */
module Washing {

  /** What the classifier reports for one tick. */
  datatype Assessment = Assessment(
    isWashing: bool,
    confidence: nat,
    contactScore: nat,
    hasCircularMotion: bool,
    correctOrientation: bool)

  /** The contact criterion holds from this many touching pairs on. */
  const MinContactScore: nat := 3
  const ContactWeight: nat := 40
  const CircularWeight: nat := 35
  const OrientationWeight: nat := 25
  const WashingConfidence: nat := 60

  /** How many of the three criteria hold. */
  function CriteriaMet(contact: bool, circular: bool, orientation: bool): (n: nat)
    ensures n <= 3
    ensures n == 0 <==> !contact && !circular && !orientation
  {
    (if contact then 1 else 0) + (if circular then 1 else 0) + (if orientation then 1 else 0)
  }

  /** Weighs the three criteria into a confidence and a verdict. */
  function Aggregate(contactScore: nat, circular: bool, orientation: bool): (a: Assessment)
    ensures a.contactScore == contactScore
    ensures a.hasCircularMotion == circular && a.correctOrientation == orientation
    ensures a.confidence in {0, 25, 35, 40, 60, 65, 75, 100}
    ensures a.confidence <= 100
    ensures a.isWashing <==> CriteriaMet(contactScore >= MinContactScore, circular, orientation) >= 2
    ensures a.confidence == 100 <==> CriteriaMet(contactScore >= MinContactScore, circular, orientation) == 3
  {
    var confidence :=
      (if contactScore >= MinContactScore then ContactWeight else 0) +
      (if circular then CircularWeight else 0) +
      (if orientation then OrientationWeight else 0);
    Assessment(confidence >= WashingConfidence, confidence, contactScore, circular, orientation)
  }

  /** Meeting more criteria never lowers the confidence nor withdraws the verdict. */
  lemma AggregateMonotone(score: nat, circular: bool, orientation: bool, score': nat, circular': bool, orientation': bool)
    requires score >= MinContactScore ==> score' >= MinContactScore
    requires circular ==> circular'
    requires orientation ==> orientation'
    ensures Aggregate(score, circular, orientation).confidence <= Aggregate(score', circular', orientation').confidence
    ensures Aggregate(score, circular, orientation).isWashing ==> Aggregate(score', circular', orientation').isWashing
  {
  }
}
