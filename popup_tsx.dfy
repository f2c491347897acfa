/** The React popup (src/pages/popup/Popup.tsx): its text-to-speech session,
    the one-shot settlement of a summarise request and what that settlement
    does to the result text. Rendering is not part of this model. */
module PopupTsx {
  import opened Common
  import opened JsString
  import opened Storage
  import opened Tts

  /** The result text shown before any summary. */
  const Placeholder: string := "Select a Type and click Summarize"

  /** The popup's `ERROR_MESSAGES` its speech functions report. */
  const TtsFailed: string := "\U{1F507} Text-to-Speech failed. Your browser may not support it."
  const TtsNotSupported: string := "\U{1F507} Text-to-Speech is not supported in this browser."

  /** The rejections of a summarise request that has no answer, or a bad
      one. */
  const TimedOut: string := "Request timed out. Please try again."
  const InvalidResponse: string := "Invalid response from background script"

  /** The speech state of the popup: the React state `isSpeaking`,
      `isPaused` and `showFloatingControls`, the refs `isStoppingTTSRef` and
      `utteranceRef` (the text of the current utterance), the calls made on
      the speech engine and the messages passed to `showError`. */
  class SpeechSession {
    var isSpeaking: bool
    var isPaused: bool
    var showFloatingControls: bool
    var isStopping: bool
    var utterance: Option<string>
    var calls: seq<SpeechCall>
    var errors: seq<string>

    /** The controls show only while speaking, and speaking has an
        utterance. */
    ghost predicate Valid()
      reads this
    {
      (showFloatingControls ==> isSpeaking) && (isSpeaking ==> utterance.Some?)
    }

    constructor()
      ensures Valid()
      ensures !isSpeaking && !isPaused && !showFloatingControls && !isStopping
      ensures utterance.None? && calls == [] && errors == []
    {
      isSpeaking, isPaused, showFloatingControls, isStopping := false, false, false, false;
      utterance, calls, errors := None, [], [];
    }

    /** `startTTS(text)`: nothing for an empty text or while speaking; an
        error and nothing else without speech support; otherwise every
        queued utterance cancelled, then the text spoken with the voice the
        settings choose, and the session marked speaking, unpaused, not
        stopping, with its controls shown. */
    method StartTts(text: string, supported: bool, voices: seq<Voice>, settings: TtsSettings)
      requires Valid()
      modifies this
      ensures Valid()
      ensures text == "" || old(isSpeaking) ==> unchanged(this)
      ensures text != "" && !old(isSpeaking) && !supported ==>
        errors == old(errors) + [TtsNotSupported]
        && isSpeaking == old(isSpeaking) && isPaused == old(isPaused) && isStopping == old(isStopping)
        && showFloatingControls == old(showFloatingControls) && utterance == old(utterance) && calls == old(calls)
      ensures text != "" && !old(isSpeaking) && supported ==>
        isSpeaking && !isPaused && !isStopping && showFloatingControls && utterance == Some(text)
        && calls == old(calls) + [Cancel, Speak(text, GetVoiceFromSettings(voices, settings))]
        && errors == old(errors)
    {
      if text == "" || isSpeaking {
        return;
      }
      if !supported {
        errors := errors + [TtsNotSupported];
        return;
      }
      calls := calls + [Cancel];
      utterance := Some(text);
      var selectedVoice := GetVoiceFromSettings(voices, settings);
      calls := calls + [Speak(text, selectedVoice)];
      isSpeaking := true;
      isPaused := false;
      isStopping := false;
      showFloatingControls := true;
    }

    /** The utterance's `onend`: the session ends, unless it is being
        stopped. */
    method OnEnd()
      requires Valid()
      modifies this
      ensures Valid()
      ensures old(isStopping) ==> unchanged(this)
      ensures !old(isStopping) ==> !isSpeaking && !isPaused && !showFloatingControls
      ensures isStopping == old(isStopping) && utterance == old(utterance) && calls == old(calls)
      ensures errors == old(errors)
    {
      if !isStopping {
        isSpeaking, isPaused, showFloatingControls := false, false, false;
      }
    }

    /** The utterance's `onpause`. */
    method OnPause()
      requires Valid()
      modifies this
      ensures Valid()
      ensures old(isStopping) ==> unchanged(this)
      ensures !old(isStopping) ==> isPaused
      ensures isSpeaking == old(isSpeaking) && showFloatingControls == old(showFloatingControls)
      ensures isStopping == old(isStopping) && utterance == old(utterance) && calls == old(calls)
      ensures errors == old(errors)
    {
      if !isStopping {
        isPaused := true;
      }
    }

    /** The utterance's `onresume`. */
    method OnResume()
      requires Valid()
      modifies this
      ensures Valid()
      ensures old(isStopping) ==> unchanged(this)
      ensures !old(isStopping) ==> !isPaused
      ensures isSpeaking == old(isSpeaking) && showFloatingControls == old(showFloatingControls)
      ensures isStopping == old(isStopping) && utterance == old(utterance) && calls == old(calls)
      ensures errors == old(errors)
    {
      if !isStopping {
        isPaused := false;
      }
    }

    /** The utterance's `onerror`: the session ends with the failure
        reported, unless it is being stopped. */
    method OnError()
      requires Valid()
      modifies this
      ensures Valid()
      ensures old(isStopping) ==> unchanged(this)
      ensures !old(isStopping) ==>
        !isSpeaking && !isPaused && !showFloatingControls && errors == old(errors) + [TtsFailed]
      ensures isStopping == old(isStopping) && utterance == old(utterance) && calls == old(calls)
    {
      if !isStopping {
        isSpeaking, isPaused, showFloatingControls := false, false, false;
        errors := errors + [TtsFailed];
      }
    }

    /** `pauseResumeTTS()`: while speaking with pause support, asks the
        engine to resume a paused session and to pause a running one;
        `isPaused` itself waits for the engine's callback. */
    method PauseResume(supported: bool)
      requires Valid()
      modifies this
      ensures Valid()
      ensures !old(isSpeaking) || !supported ==> unchanged(this)
      ensures old(isSpeaking) && supported ==> calls == old(calls) + [if old(isPaused) then Resume else Pause]
      ensures isSpeaking == old(isSpeaking) && isPaused == old(isPaused) && isStopping == old(isStopping)
      ensures showFloatingControls == old(showFloatingControls) && utterance == old(utterance)
      ensures errors == old(errors)
    {
      if !isSpeaking || !supported {
        return;
      }
      if isPaused {
        calls := calls + [Resume];
      } else {
        calls := calls + [Pause];
      }
    }

    /** `stopTTS()`: nothing unless speaking; otherwise the stopping flag is
        raised before the engine is cancelled, so that the callbacks the
        cancel provokes change nothing, and the session is reset. */
    method Stop()
      requires Valid()
      modifies this
      ensures Valid()
      ensures !old(isSpeaking) ==> unchanged(this)
      ensures old(isSpeaking) ==>
        isStopping && !isSpeaking && !isPaused && !showFloatingControls && utterance.None?
        && calls == old(calls) + [Cancel]
      ensures errors == old(errors)
    {
      if !isSpeaking {
        return;
      }
      isStopping := true;
      calls := calls + [Cancel];
      isSpeaking, isPaused, showFloatingControls := false, false, false;
      utterance := None;
    }

    /** The timer `stopTTS` sets: the stopping flag falls again. */
    method StoppingTimerFires()
      requires Valid()
      modifies this
      ensures Valid()
      ensures !isStopping
      ensures isSpeaking == old(isSpeaking) && isPaused == old(isPaused)
      ensures showFloatingControls == old(showFloatingControls) && utterance == old(utterance)
      ensures calls == old(calls) && errors == old(errors)
    {
      isStopping := false;
    }

    /** A click outside the controls and the speak button hides the
        controls while speaking. */
    method OutsideClick(insideControls: bool, onSpeakButton: bool)
      requires Valid()
      modifies this
      ensures Valid()
      ensures old(isSpeaking) && !insideControls && !onSpeakButton ==> !showFloatingControls
      ensures !(old(isSpeaking) && !insideControls && !onSpeakButton) ==> unchanged(this)
      ensures isSpeaking == old(isSpeaking) && isPaused == old(isPaused) && isStopping == old(isStopping)
      ensures utterance == old(utterance) && calls == old(calls) && errors == old(errors)
    {
      if isSpeaking && !insideControls && !onSpeakButton {
        showFloatingControls := false;
      }
    }

    /** `handleSpeak`: nothing while speaking, for a blank result or for
        the placeholder; otherwise `startTTS` on the trimmed result with the
        settings just loaded. */
    method HandleSpeak(result: string, supported: bool, voices: seq<Voice>, settings: TtsSettings)
      requires Valid()
      modifies this
      ensures Valid()
      ensures old(isSpeaking) || Trim(result) == "" || Trim(result) == Placeholder ==> unchanged(this)
      ensures !old(isSpeaking) && Trim(result) != "" && Trim(result) != Placeholder && supported ==>
        isSpeaking && utterance == Some(Trim(result))
        && calls == old(calls) + [Cancel, Speak(Trim(result), GetVoiceFromSettings(voices, settings))]
      ensures !old(isSpeaking) && Trim(result) != "" && Trim(result) != Placeholder && !supported ==>
        errors == old(errors) + [TtsNotSupported] && isSpeaking == old(isSpeaking)
        && utterance == old(utterance) && calls == old(calls)
    {
      if isSpeaking {
        return;
      }
      var text := Trim(result);
      if text == "" || text == Placeholder {
        return;
      }
      StartTts(text, supported, voices, settings);
    }
  }

  /** How a summarise request ends: the summary, or the rejection's
      message. */
  datatype Settlement = Resolved(summary: string) | Rejected(message: string)

  /** What the background's answer settles the request with: a send error
      rejects with its message; a non-empty string resolves; anything else
      rejects as an invalid response. `response` is `None` when the answer
      is not a string. */
  function ReplySettlement(lastError: Option<string>, response: Option<string>): (s: Settlement)
    ensures lastError.Some? ==> s == Rejected(lastError.value)
    ensures lastError.None? ==> (s.Resolved? <==> response.Some? && response.value != "")
    ensures s.Resolved? ==> response == Some(s.summary) && s.summary != ""
    ensures lastError.None? && s.Rejected? ==> s.message == InvalidResponse
  {
    if lastError.Some? then Rejected(lastError.value)
    else if response.Some? && response.value != "" then Resolved(response.value)
    else Rejected(InvalidResponse)
  }

  /** The promise `handleSummarize` awaits: the one-shot flag `isResolved`
      shared by the 25-second timer and the answer's callback, whether the
      callback has cleared the timer, and the settlement, if any. */
  class SummaryRequest {
    var isResolved: bool
    var timerCleared: bool
    var settlement: Option<Settlement>

    /** The flag is raised exactly when the promise is settled. */
    ghost predicate Valid()
      reads this
    {
      isResolved <==> settlement.Some?
    }

    constructor()
      ensures Valid() && !isResolved && !timerCleared && settlement.None?
    {
      isResolved, timerCleared, settlement := false, false, None;
    }

    /** The timer fires: a cleared timer does nothing; otherwise an
        unsettled request is rejected as timed out. */
    method OnTimeout()
      requires Valid()
      modifies this
      ensures Valid()
      ensures old(timerCleared) || old(isResolved) ==> unchanged(this)
      ensures !old(timerCleared) && !old(isResolved) ==> settlement == Some(Rejected(TimedOut))
      ensures timerCleared == old(timerCleared)
    {
      if timerCleared {
        return;
      }
      if !isResolved {
        isResolved := true;
        settlement := Some(Rejected(TimedOut));
      }
    }

    /** The answer's callback: the timer is cleared; a closed popup or a
        request already settled ignores the answer; otherwise the answer
        settles it. */
    method OnReply(popupOpen: bool, lastError: Option<string>, response: Option<string>)
      requires Valid()
      modifies this
      ensures Valid()
      ensures timerCleared
      ensures old(isResolved) || !popupOpen ==> settlement == old(settlement) && isResolved == old(isResolved)
      ensures !old(isResolved) && popupOpen ==> settlement == Some(ReplySettlement(lastError, response))
    {
      timerCleared := true;
      if !popupOpen || isResolved {
        return;
      }
      isResolved := true;
      settlement := Some(ReplySettlement(lastError, response));
    }
  }

  /** The result text once a request has settled: a summary replaces it;
      a rejection only reaches `showError`, which logs it, so the text
      keeps its old value. */
  function ResultAfter(result: string, s: Settlement): (r: string)
    ensures s.Resolved? ==> r == s.summary
    ensures s.Rejected? ==> r == result
  {
    if s.Resolved? then s.summary else result
  }

  /** The result text changes only to a non-empty string the background
      answered with, whatever that string says; a send error or an answer
      that is not a non-empty string leaves it as it was. */
  lemma ResultShowsOnlyAnswers(result: string, lastError: Option<string>, response: Option<string>)
    ensures ResultAfter(result, ReplySettlement(lastError, response)) != result ==>
      lastError.None? && response == Some(ResultAfter(result, ReplySettlement(lastError, response)))
    ensures lastError.None? && response.Some? && response.value != "" ==>
      ResultAfter(result, ReplySettlement(lastError, response)) == response.value
    ensures lastError.Some? || response.None? || response == Some("") ==>
      ResultAfter(result, ReplySettlement(lastError, response)) == result
  {
  }

  /** The React state `handleSummarize` writes: the result text and the
      loading flag behind the spinner. */
  class SummaryView {
    var result: string
    var isLoading: bool

    constructor()
      ensures result == Placeholder && !isLoading
    {
      result, isLoading := Placeholder, false;
    }

    /** The click: the spinner shows and the old result text stays. */
    method Begin()
      modifies this
      ensures isLoading && result == old(result)
    {
      isLoading := true;
    }

    /** A missing tab or no extracted text: the error is only logged, the
        spinner stops and the result text stays. */
    method Abort()
      modifies this
      ensures !isLoading && result == old(result)
    {
      isLoading := false;
    }

    /** The awaited request settles: `setResult(summary)` on a summary,
        only a logged error on a rejection; the spinner stops either way. */
    method Settled(s: Settlement)
      modifies this
      ensures !isLoading && result == ResultAfter(old(result), s)
    {
      if s.Resolved? {
        result := s.summary;
      }
      isLoading := false;
    }
  }
}
