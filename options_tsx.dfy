/** The React options page (src/pages/options/Options.tsx): the state behind
    its navigation, accordions, settings panels, voice test and feedback
    form. Each handler is a method on that state; rendering is not modelled. */
module OptionsTsx {
  import opened Common
  import opened JsString
  import opened Storage
  import opened Tts
  import opened OptionsCommon
  import Security
  import Base64

  /** The one message of the voice test that only this page has. */
  const TtsUnsupported: string := "Text-to-speech is not supported in this browser"

  /** Whether an entry of an `{ [key]: boolean }` state object reads as
      expanded: a key that was never set reads as collapsed. */
  predicate Expanded<K(!new)>(m: map<K, bool>, key: K)
  {
    key in m && m[key]
  }

  /** The functional update `{ ...prev, [key]: !prev[key] }`: the given key
      flips (an unset key becomes `true`), every other entry stays. */
  function Toggle<K(!new)>(m: map<K, bool>, key: K): (r: map<K, bool>)
    ensures key in r && (Expanded(r, key) <==> !Expanded(m, key))
    ensures forall k :: k != key ==> (k in r <==> k in m)
    ensures forall k :: k != key && k in m ==> r[k] == m[k]
  {
    m[key := !Expanded(m, key)]
  }

  /** Toggling the same entry twice leaves every entry reading as it did. */
  lemma ToggleTwice<K(!new)>(m: map<K, bool>, key: K, other: K)
    ensures Expanded(Toggle(Toggle(m, key), key), other) == Expanded(m, other)
  {
  }

  /** The page's state: the `useState` hooks and the test utterance ref,
      with the speech engine's calls recorded in `calls`. */
  class OptionsPage {
    var activeSection: Section
    var errorMessages: map<string, string>
    var successMessages: map<string, bool>
    var expandedAccordions: map<string, bool>
    var expandedFaqs: map<int, bool>
    var isTestPlaying: bool
    var testUtterance: Option<string>
    var calls: seq<SpeechCall>
    var feedbackMessage: string
    var feedbackEmail: string
    var feedbackStatus: Status

    /** The test button says "playing" exactly while an utterance is held. */
    predicate Valid()
      reads this
    {
      isTestPlaying <==> testUtterance.Some?
    }

    /** The groups of state the handlers touch. */
    function Nav(): (Section, map<string, string>, map<string, bool>)
      reads this
    {
      (activeSection, errorMessages, successMessages)
    }

    function Panels(): (map<string, bool>, map<int, bool>)
      reads this
    {
      (expandedAccordions, expandedFaqs)
    }

    function Speech(): (bool, Option<string>, seq<SpeechCall>)
      reads this
    {
      (isTestPlaying, testUtterance, calls)
    }

    function Form(): (string, string, Status)
      reads this
    {
      (feedbackMessage, feedbackEmail, feedbackStatus)
    }

    /** The initial state: the general section, nothing expanded, nothing
        playing, an empty idle form. */
    constructor()
      ensures Valid()
      ensures activeSection == General && errorMessages == map[] && successMessages == map[]
      ensures expandedAccordions == map[] && expandedFaqs == map[]
      ensures !isTestPlaying && calls == []
      ensures feedbackMessage == "" && feedbackEmail == "" && feedbackStatus == Status(Idle, "")
    {
      activeSection := General;
      errorMessages := map[];
      successMessages := map[];
      expandedAccordions := map[];
      expandedFaqs := map[];
      isTestPlaying := false;
      testUtterance := None;
      calls := [];
      feedbackMessage := "";
      feedbackEmail := "";
      feedbackStatus := Status(Idle, "");
    }

    /** `showSection`: the section becomes active and every error message
        is cleared. */
    method ShowSection(section: Section)
      modifies this
      ensures activeSection == section && errorMessages == map[]
      ensures successMessages == old(successMessages)
      ensures Panels() == old(Panels()) && Speech() == old(Speech()) && Form() == old(Form())
    {
      activeSection := section;
      errorMessages := map[];
    }

    /** `toggleAccordion(key)`: only that accordion flips. */
    method ToggleAccordion(key: string)
      modifies this
      ensures Expanded(expandedAccordions, key) <==> !Expanded(old(expandedAccordions), key)
      ensures forall k :: k != key ==> Expanded(expandedAccordions, k) == Expanded(old(expandedAccordions), k)
      ensures expandedFaqs == old(expandedFaqs)
      ensures Nav() == old(Nav()) && Speech() == old(Speech()) && Form() == old(Form())
    {
      expandedAccordions := Toggle(expandedAccordions, key);
    }

    /** `toggleFaq(index)`: only that question flips. */
    method ToggleFaq(index: int)
      modifies this
      ensures Expanded(expandedFaqs, index) <==> !Expanded(old(expandedFaqs), index)
      ensures forall k :: k != index ==> Expanded(expandedFaqs, k) == Expanded(old(expandedFaqs), k)
      ensures expandedAccordions == old(expandedAccordions)
      ensures Nav() == old(Nav()) && Speech() == old(Speech()) && Form() == old(Form())
    {
      expandedFaqs := Toggle(expandedFaqs, index);
    }

    /** `saveApiSettingsHandler`: a blank key sets the API error and stores
        nothing; otherwise the key is stored through `storeApiKeySecurely`,
        after which it reads back, and the panel shows success, or the save
        error when storage rejects. `now` is the clock. */
    method SaveApiSettings(store: SyncStore, apiKey: string, now: int)
      modifies this, store
      ensures Trim(apiKey) == [] ==>
        errorMessages == old(errorMessages)["api" := ApiKeyRequired]
        && successMessages == old(successMessages)
        && store.data == old(store.data)
      ensures Trim(apiKey) != [] && old(store.failure).None? ==>
        errorMessages == old(errorMessages)["api" := ""]
        && successMessages == old(successMessages)["api" := true]
        && store.data == old(store.data) + Security.StoredKeyEntries(apiKey, now)
      ensures Trim(apiKey) != [] && old(store.failure).None? && Base64.IsLatin1(apiKey) ==>
        Security.RetrieveApiKeySecurely(store) == apiKey
      ensures Trim(apiKey) != [] && old(store.failure).Some? ==>
        errorMessages == old(errorMessages)["api" := SaveApiFailed]
        && successMessages == old(successMessages)
        && store.data == old(store.data)
      ensures activeSection == old(activeSection)
      ensures Panels() == old(Panels()) && Speech() == old(Speech()) && Form() == old(Form())
    {
      if Trim(apiKey) == [] {
        errorMessages := errorMessages["api" := ApiKeyRequired];
        return;
      }
      var r := Security.StoreApiKeySecurely(store, apiKey, now);
      if r.Ok? {
        successMessages := successMessages["api" := true];
        errorMessages := errorMessages["api" := ""];
      } else {
        errorMessages := errorMessages["api" := SaveApiFailed];
      }
    }

    /** `saveGeneralSettingsHandler`: the page's general settings are
        stored, after which they load back, and the panel shows success; a
        rejected write shows the save error and stores nothing. */
    method SaveGeneralSettings(store: SyncStore, settings: GeneralSettings)
      modifies this, store
      ensures old(store.failure).None? ==>
        errorMessages == old(errorMessages)["general" := ""]
        && successMessages == old(successMessages)["general" := true]
        && store.data == old(store.data)["generalSettings" := GeneralValue(settings)]
        && LoadGeneralSettings(store) == GeneralValue(settings)
      ensures old(store.failure).Some? ==>
        errorMessages == old(errorMessages)["general" := SaveGeneralFailed]
        && successMessages == old(successMessages)
        && store.data == old(store.data)
      ensures activeSection == old(activeSection)
      ensures Panels() == old(Panels()) && Speech() == old(Speech()) && Form() == old(Form())
    {
      var r := Tts.SaveGeneralSettings(store, settings);
      if r.Ok? {
        successMessages := successMessages["general" := true];
        errorMessages := errorMessages["general" := ""];
      } else {
        errorMessages := errorMessages["general" := SaveGeneralFailed];
      }
    }

    /** `saveTtsSettingsHandler`: the page's voice settings are stored,
        after which they load back, and the panel shows success; a rejected
        write shows the save error and stores nothing. */
    method SaveTtsSettings(store: SyncStore, settings: TtsSettings)
      modifies this, store
      ensures old(store.failure).None? ==>
        errorMessages == old(errorMessages)["tts" := ""]
        && successMessages == old(successMessages)["tts" := true]
        && store.data == old(store.data)["ttsSettings" := TtsValue(settings)]
        && LoadTtsSettings(store) == TtsValue(settings)
      ensures old(store.failure).Some? ==>
        errorMessages == old(errorMessages)["tts" := SaveTtsFailed]
        && successMessages == old(successMessages)
        && store.data == old(store.data)
      ensures activeSection == old(activeSection)
      ensures Panels() == old(Panels()) && Speech() == old(Speech()) && Form() == old(Form())
    {
      var r := Tts.SaveTtsSettings(store, settings);
      if r.Ok? {
        successMessages := successMessages["tts" := true];
        errorMessages := errorMessages["tts" := ""];
      } else {
        errorMessages := errorMessages["tts" := SaveTtsFailed];
      }
    }

    /** `testVoice`: while a test plays, it is cancelled; otherwise a blank
        text or a browser without speech sets the voice error and nothing
        is spoken, and any other text is spoken, trimmed, with the voice
        the settings choose. `supported` is `isTTSSupported()`. */
    method TestVoice(text: string, supported: bool, voices: seq<Voice>, settings: TtsSettings)
      requires Valid()
      modifies this
      ensures Valid()
      ensures old(isTestPlaying) ==>
        !isTestPlaying && calls == old(calls) + [Cancel] && errorMessages == old(errorMessages)
      ensures !old(isTestPlaying) && Trim(text) == [] ==>
        !isTestPlaying && calls == old(calls) && errorMessages == old(errorMessages)["tts" := TestTextRequired]
      ensures !old(isTestPlaying) && Trim(text) != [] && !supported ==>
        !isTestPlaying && calls == old(calls) && errorMessages == old(errorMessages)["tts" := TtsUnsupported]
      ensures !old(isTestPlaying) && Trim(text) != [] && supported ==>
        isTestPlaying && errorMessages == old(errorMessages)
        && calls == old(calls) + [Speak(Trim(text), GetVoiceFromSettings(voices, settings))]
      ensures activeSection == old(activeSection) && successMessages == old(successMessages)
      ensures Panels() == old(Panels()) && Form() == old(Form())
    {
      if isTestPlaying {
        calls := calls + [Cancel];
        isTestPlaying := false;
        testUtterance := None;
        return;
      }
      var trimmed := Trim(text);
      if trimmed == [] {
        errorMessages := errorMessages["tts" := TestTextRequired];
        return;
      }
      if !supported {
        errorMessages := errorMessages["tts" := TtsUnsupported];
        return;
      }
      testUtterance := Some(trimmed);
      calls := calls + [Speak(trimmed, GetVoiceFromSettings(voices, settings))];
      isTestPlaying := true;
    }

    /** The test utterance's `onend`: the test is over. */
    method TestEnded()
      requires Valid()
      modifies this
      ensures Valid() && !isTestPlaying
      ensures calls == old(calls) && Nav() == old(Nav())
      ensures Panels() == old(Panels()) && Form() == old(Form())
    {
      isTestPlaying := false;
      testUtterance := None;
    }

    /** The test utterance's `onerror`: the test is over and the voice error
        is set. */
    method TestFailed()
      requires Valid()
      modifies this
      ensures Valid() && !isTestPlaying
      ensures errorMessages == old(errorMessages)["tts" := TestVoiceFailed]
      ensures calls == old(calls) && activeSection == old(activeSection)
      ensures successMessages == old(successMessages)
      ensures Panels() == old(Panels()) && Form() == old(Form())
    {
      isTestPlaying := false;
      testUtterance := None;
      errorMessages := errorMessages["tts" := TestVoiceFailed];
    }

    /** `handleFeedbackSubmit` up to the POST: the message as typed (not
        trimmed) and the email are validated; a refusal shows its message
        and posts nothing, otherwise the status is loading and the message,
        with the email only when there is one, is posted. */
    method SubmitFeedback() returns (post: Option<FeedbackPost>)
      modifies this
      ensures Submission(feedbackStatus, post) == CheckFeedback(old(feedbackMessage), old(feedbackEmail))
      ensures feedbackMessage == old(feedbackMessage) && feedbackEmail == old(feedbackEmail)
      ensures Nav() == old(Nav()) && Panels() == old(Panels()) && Speech() == old(Speech())
    {
      var checked := CheckFeedback(feedbackMessage, feedbackEmail);
      feedbackStatus := checked.status;
      post := checked.post;
    }

    /** The end of the POST: `ok` is whether a response came back with
        `response.ok`. Success thanks the user and clears the message and
        email; anything else shows the send failure and keeps them. */
    method FeedbackSettled(ok: bool)
      modifies this
      ensures ok ==> feedbackStatus == Status(Success, Thanks) && feedbackMessage == "" && feedbackEmail == ""
      ensures !ok ==>
        feedbackStatus == Status(Failure, SendFailed)
        && feedbackMessage == old(feedbackMessage) && feedbackEmail == old(feedbackEmail)
      ensures Nav() == old(Nav()) && Panels() == old(Panels()) && Speech() == old(Speech())
    {
      if ok {
        feedbackStatus := Status(Success, Thanks);
        feedbackMessage := "";
        feedbackEmail := "";
      } else {
        feedbackStatus := Status(Failure, SendFailed);
      }
    }
  }
}
