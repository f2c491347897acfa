/** The speak button helper (text-to-speech.js): one toggle that speaks,
    pauses and resumes, with its module-level state. */
module TextToSpeech {
  import opened Common
  import opened JsString
  import opened Tts

  /** The labels the toggle gives its button. */
  const ListenLabel: string := "\U{1F50A} Listen"
  const PauseLabel: string := "\U{23F8} Pause"
  const ResumeLabel: string := "\U{25B6}\U{FE0F} Resume"

  /** The module-level `utterance` (its text), `isSpeaking` and
      `isPaused`, the button's buttonText and the calls made on the speech
      engine. */
  class Speech {
    var utterance: Option<string>
    var isSpeaking: bool
    var isPaused: bool
    var buttonText: string
    var calls: seq<SpeechCall>

    /** Paused only while speaking, and speaking has an utterance. */
    ghost predicate Valid()
      reads this
    {
      (isPaused ==> isSpeaking) && (isSpeaking ==> utterance.Some?)
    }

    constructor(text0: string)
      ensures Valid() && utterance.None? && !isSpeaking && !isPaused && buttonText == text0 && calls == []
    {
      utterance, isSpeaking, isPaused, buttonText, calls := None, false, false, text0, [];
    }

    /** `toggleSpeech(text, button)`: nothing for a blank text; from idle,
        the text is spoken with the first Google US English voice (else the
        first voice); while speaking, a running session is paused and a
        paused one resumed. */
    method Toggle(text: string, voices: seq<Voice>)
      requires Valid()
      modifies this
      ensures Valid()
      ensures Trim(text) == "" ==> unchanged(this)
      ensures Trim(text) != "" && (old(utterance).None? || !old(isSpeaking)) ==>
        isSpeaking && !isPaused && utterance == Some(text) && buttonText == PauseLabel
        && calls == old(calls) + [Speak(text, GetVoiceFromSettings(voices, DefaultTtsSettings))]
      ensures Trim(text) != "" && old(utterance).Some? && old(isSpeaking) && !old(isPaused) ==>
        isSpeaking && isPaused && utterance == old(utterance) && buttonText == ResumeLabel
        && calls == old(calls) + [Pause]
      ensures Trim(text) != "" && old(utterance).Some? && old(isSpeaking) && old(isPaused) ==>
        isSpeaking && !isPaused && utterance == old(utterance) && buttonText == PauseLabel
        && calls == old(calls) + [Resume]
    {
      if Trim(text) == "" {
        return;
      }
      if utterance.None? || !isSpeaking {
        utterance := Some(text);
        var voice := GetVoiceFromSettings(voices, DefaultTtsSettings);
        calls := calls + [Speak(text, voice)];
        isSpeaking := true;
        isPaused := false;
        buttonText := PauseLabel;
      } else if !isPaused {
        calls := calls + [Pause];
        isPaused := true;
        buttonText := ResumeLabel;
      } else {
        calls := calls + [Resume];
        isPaused := false;
        buttonText := PauseLabel;
      }
    }

    /** The utterance's `onend`: both flags fall and the button reads
        "Listen" again. */
    method OnEnd()
      requires Valid()
      modifies this
      ensures Valid()
      ensures !isSpeaking && !isPaused && buttonText == ListenLabel
      ensures utterance == old(utterance) && calls == old(calls)
    {
      isSpeaking, isPaused, buttonText := false, false, ListenLabel;
    }
  }

  /** Three presses on the same text speak, pause and resume: the engine
      receives a resume, and the session is speaking unpaused again. */
  method PauseThenResume(text: string, voices: seq<Voice>) returns (s: Speech)
    requires Trim(text) != ""
    ensures s.Valid() && s.isSpeaking && !s.isPaused
    ensures s.calls == [Speak(text, GetVoiceFromSettings(voices, DefaultTtsSettings)), Pause, Resume]
  {
    s := new Speech(ListenLabel);
    s.Toggle(text, voices);
    s.Toggle(text, voices);
    s.Toggle(text, voices);
  }
}
