/**
 * The speech gate (`speak`, main.js:108-125): at most one utterance in
 * flight, and never the same text twice in a row.
 */
module Speech {

  /** Whether `speak(text)` hands `text` to the speech engine. */
  predicate Announces(available: bool, speaking: bool, lastSpokenText: string, text: string)
    ensures Announces(available, speaking, lastSpokenText, text) ==> available
    ensures speaking ==> !Announces(available, speaking, lastSpokenText, text)
    ensures text == lastSpokenText ==> !Announces(available, speaking, lastSpokenText, text)
  {
    available && !speaking && text != lastSpokenText
  }

  class SpeechGate {
    /** Whether the browser offers `window.speechSynthesis` at all. */
    const available: bool
    var speaking: bool
    var lastSpokenText: string

    constructor (available: bool)
      ensures this.available == available
      ensures !speaking && lastSpokenText == ""
    {
      this.available := available;
      speaking := false;
      lastSpokenText := "";
    }

    /** `speak(text)`; `spoke` says whether an utterance was started. */
    method Speak(text: string) returns (spoke: bool)
      modifies this
      ensures spoke == Announces(available, old(speaking), old(lastSpokenText), text)
      ensures spoke ==> speaking && lastSpokenText == text
      ensures !spoke ==> speaking == old(speaking) && lastSpokenText == old(lastSpokenText)
      ensures old(speaking) ==> speaking
    {
      if !available {
        return false;
      }
      if speaking {
        return false;
      }
      if text == lastSpokenText {
        return false;
      }
      speaking := true;
      lastSpokenText := text;
      spoke := true;
    }

    /** The utterance's `onend` event: the only way `speaking` becomes false. */
    method OnEnd()
      modifies this
      ensures !speaking && lastSpokenText == old(lastSpokenText)
    {
      speaking := false;
    }
  }
}
