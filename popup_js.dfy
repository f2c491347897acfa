/** The first popup (popup.js): the result text of a summarise click and
    the speak button's state. */
module PopupJs {
  import opened Common
  import opened JsString
  import opened Tts

  /** The texts the result area shows. */
  const NoTab: string := "\U{274C} Could not get the active tab."
  const NoText: string := "\U{274C} Couldn't extract text from this page."
  const NoSummary: string := "\U{26A0}\U{FE0F} No summary returned."
  const Warning: string := "\U{26A0}\U{FE0F} "

  /** The result area after a summarise click: no active tab, no text
      extracted, the summary (or the fallback when it is empty or missing),
      or a caught error's message. `extracted` and `summary` are `Err`
      with the message when the platform call rejects; `summary` is
      `None` when the answer is not a string. */
  function ResultText(tab: Option<int>, extracted: Result<Option<string>, string>,
                      summary: Result<Option<string>, string>): (shown: string)
    ensures tab.None? || tab == Some(0) ==> shown == NoTab
    ensures tab.Some? && tab.value != 0 && extracted.Err? ==> shown == Warning + extracted.error
    ensures tab.Some? && tab.value != 0 && extracted.Ok? && (extracted.value.None? || extracted.value.value == "") ==>
      shown == NoText
    ensures tab.Some? && tab.value != 0 && extracted.Ok? && extracted.value.Some? && extracted.value.value != "" ==>
      shown == (match summary
                case Err(message) => Warning + message
                case Ok(s) => if s.Some? && s.value != "" then s.value else NoSummary)
    ensures shown != ""
  {
    if tab.None? || tab.value == 0 then NoTab
    else match extracted
      case Err(message) => Warning + message
      case Ok(text) =>
        if text.None? || text.value == "" then NoText
        else match summary
          case Err(message) => Warning + message
          case Ok(s) => if s.Some? && s.value != "" then s.value else NoSummary
  }

  /** The module-level `isSpeaking`, `isPaused` and `utterance` (its
      text), the button's buttonText and the calls made on the speech engine. */
  class SpeakButton {
    var isSpeaking: bool
    var isPaused: bool
    var utterance: Option<string>
    var buttonText: string
    var calls: seq<SpeechCall>

    constructor(text0: string)
      ensures !isSpeaking && !isPaused && utterance.None? && buttonText == text0 && calls == []
    {
      isSpeaking, isPaused, utterance, buttonText, calls := false, false, None, text0, [];
    }

    /** A click on the speak button, as written: nothing for a blank
        result; when not speaking, the trimmed result is spoken; when
        speaking and not paused, the engine is paused. A click while paused
        matches no branch, and nothing resets `isPaused`. */
    method Click(result: string, voices: seq<Voice>)
      modifies this
      ensures Trim(result) == "" ==> unchanged(this)
      ensures Trim(result) != "" && !old(isSpeaking) ==>
        isSpeaking && isPaused == old(isPaused) && utterance == Some(Trim(result)) && buttonText == "Pause"
        && calls == old(calls) + [Speak(Trim(result), GetVoiceFromSettings(voices, DefaultTtsSettings))]
      ensures Trim(result) != "" && old(isSpeaking) && !old(isPaused) ==>
        isSpeaking && isPaused && utterance == old(utterance) && buttonText == "Paused" && calls == old(calls) + [Pause]
      ensures Trim(result) != "" && old(isSpeaking) && old(isPaused) ==> unchanged(this)
    {
      var text := Trim(result);
      if text == "" {
        return;
      }
      if !isSpeaking {
        utterance := Some(text);
        var voice := GetVoiceFromSettings(voices, DefaultTtsSettings);
        calls := calls + [Speak(text, voice)];
        isSpeaking := true;
        buttonText := "Pause";
      } else if !isPaused {
        calls := calls + [Pause];
        isPaused := true;
        buttonText := "Paused";
      }
    }

    /** The utterance's `onend`: only `isSpeaking` falls. */
    method OnEnd()
      modifies this
      ensures !isSpeaking && isPaused == old(isPaused) && buttonText == "Listen"
      ensures utterance == old(utterance) && calls == old(calls)
    {
      isSpeaking := false;
      buttonText := "Listen";
    }
  }

  /** Speak, pause, then click again: the third click sends nothing to the
      engine and leaves the button paused, so speech can never be resumed
      from the popup. */
  method PausedIsStuck(result: string, voices: seq<Voice>) returns (b: SpeakButton)
    requires Trim(result) != ""
    ensures b.isSpeaking && b.isPaused
    ensures b.calls == [Speak(Trim(result), GetVoiceFromSettings(voices, DefaultTtsSettings)), Pause]
  {
    b := new SpeakButton("Listen");
    b.Click(result, voices);
    b.Click(result, voices);
    b.Click(result, voices);
  }

  /** After a pause, even the end of the speech does not bring the button
      back: the next utterance cannot be paused, since `isPaused` is still
      set. This assumes the engine fires `onend` for the paused utterance
      (for instance when it is cancelled); nothing in popup.js makes it
      fire. */
  method PauseOutlivesSpeech(result: string, voices: seq<Voice>) returns (b: SpeakButton)
    requires Trim(result) != ""
    ensures b.isSpeaking && b.isPaused
    ensures |b.calls| == 3 && b.calls[1] == Pause && b.calls[2].Speak?
  {
    b := new SpeakButton("Listen");
    b.Click(result, voices);
    b.Click(result, voices);
    b.OnEnd();
    b.Click(result, voices);
    b.Click(result, voices);
  }
}
