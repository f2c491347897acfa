/** The plain-script options page (options.js): section navigation by
    display flags, the exclusive FAQ and accordion lists, the voice test
    button, the API key, general and voice settings, and the feedback
    form, which trims what was typed before it checks it. */
module OptionsJs {
  import opened Common
  import opened JsString
  import opened Storage
  import opened Tts
  import opened OptionsCommon

  /** The sections in the order the page lays them out. */
  const AllSections: seq<Section> := [General, Api, TtsSection, Help, Support]

  lemma AllSectionsCover(s: Section)
    ensures s in AllSections
  {
  }

  /** One set of class toggles of a `show…Section` function: the chosen
      section's flag goes on, then each other section's flag goes off.
      Afterwards every section has a flag and only the chosen one is on. */
  method SelectOnly(flags: map<Section, bool>, section: Section) returns (r: map<Section, bool>)
    ensures forall t :: t in r && (r[t] <==> t == section)
  {
    r := flags[section := true];
    var n := 0;
    while n < |AllSections|
      invariant 0 <= n <= |AllSections|
      invariant section in r && r[section]
      invariant forall j :: 0 <= j < n ==> AllSections[j] in r && (r[AllSections[j]] <==> AllSections[j] == section)
    {
      if AllSections[n] != section {
        r := r[AllSections[n] := false];
      }
      n := n + 1;
    }
    forall t ensures t in r && (r[t] <==> t == section) {
      AllSectionsCover(t);
    }
  }

  /** The voice test button's two captions. */
  const TestVoiceCaption: string := "Test Voice"
  const StopTestCaption: string := "Stop Test"

  /** The storage key the API key is written under, as it was typed. */
  const KeyName: string := "geminiApiKey"

  /** A theme radio button. */
  datatype ThemeRadio = LightRadio | DarkRadio | AutoRadio

  /** The theme saved from the radios: light when its radio is checked,
      else dark when its radio is checked, else auto. */
  function ThemeFromRadios(lightChecked: bool, darkChecked: bool): (theme: string)
    ensures theme == "light" <==> lightChecked
    ensures theme == "dark" <==> !lightChecked && darkChecked
    ensures theme == "auto" <==> !lightChecked && !darkChecked
  {
    if lightChecked then "light" else if darkChecked then "dark" else "auto"
  }

  /** The radio checked for a loaded theme: light and dark their own,
      anything else auto. */
  function RadioForTheme(theme: string): (radio: ThemeRadio)
    ensures radio == LightRadio <==> theme == "light"
    ensures radio == DarkRadio <==> theme == "dark"
  {
    if theme == "light" then LightRadio else if theme == "dark" then DarkRadio else AutoRadio
  }

  /** Saving from a checked radio and loading back checks the same radio. */
  lemma ThemeRoundTrip(radio: ThemeRadio)
    ensures RadioForTheme(ThemeFromRadios(radio == LightRadio, radio == DarkRadio)) == radio
  {
  }

  /** Loading a theme and saving it back keeps the three known themes and
      turns every other into "auto". */
  lemma ThemeNormalises(theme: string)
    ensures var radio := RadioForTheme(theme);
      ThemeFromRadios(radio == LightRadio, radio == DarkRadio)
      == (if theme == "light" || theme == "dark" then theme else "auto")
  {
  }

  /** The radio `loadSettings` checks: the theme of the stored general
      settings, or of the defaults when none are stored; nothing is checked
      when storage rejects the read. */
  function LoadedRadio(store: SyncStore): (radio: Option<ThemeRadio>)
    reads store
    ensures store.failure.Some? <==> radio.None?
    ensures store.failure.None? && "generalSettings" !in store.data ==> radio == Some(AutoRadio)
    ensures store.failure.None? && "generalSettings" in store.data && store.data["generalSettings"].GeneralValue? ==>
      radio == Some(RadioForTheme(store.data["generalSettings"].general.theme))
  {
    if store.failure.Some? then None
    else
      match LoadGeneralSettings(store)
      case GeneralValue(settings) => Some(RadioForTheme(settings.theme))
      case _ => Some(AutoRadio)
  }

  /** A list of FAQ questions or accordion headers; `expanded[j]` is item
      `j`'s `aria-expanded`, which moves together with its panel's class. */
  class ExpandableList {
    const expanded: array<bool>

    constructor(initial: seq<bool>)
      ensures expanded[..] == initial && fresh(expanded)
    {
      expanded := new bool[|initial|](j requires 0 <= j < |initial| => initial[j]);
    }

    /** A click on item `i`: every item is closed, then `i` is opened if it
        was closed before the click. At most one item is open afterwards. */
    method Click(i: nat)
      requires i < expanded.Length
      modifies expanded
      ensures forall j :: 0 <= j < expanded.Length ==> (expanded[j] <==> j == i && !old(expanded[i]))
      ensures forall j, k :: 0 <= j < expanded.Length && 0 <= k < expanded.Length && expanded[j] && expanded[k] ==> j == k
    {
      var wasExpanded := expanded[i];
      var n := 0;
      while n < expanded.Length
        invariant 0 <= n <= expanded.Length
        invariant forall j :: 0 <= j < n ==> !expanded[j]
      {
        expanded[n] := false;
        n := n + 1;
      }
      if !wasExpanded {
        expanded[i] := true;
      }
    }
  }

  /** The page's script state: which section and navigation button show,
      the voice test, the alerts raised, the settings panels whose success banner shows, and the
      feedback form. */
  class OptionsScript {
    var displayed: map<Section, bool>
    var navActive: map<Section, bool>
    var isTestPlaying: bool
    var testCaption: string
    var calls: seq<SpeechCall>
    var alerts: seq<string>
    var banners: set<Section>
    var messageInput: string
    var emailInput: string
    var feedbackStatus: Status
    var submitDisabled: bool

    /** The test button's caption follows whether a test plays. */
    predicate Valid()
      reads this
    {
      testCaption == (if isTestPlaying then StopTestCaption else TestVoiceCaption)
    }

    /** The groups of state the handlers touch. */
    function Sections(): (map<Section, bool>, map<Section, bool>)
      reads this
    {
      (displayed, navActive)
    }

    function Speech(): (bool, string, seq<SpeechCall>)
      reads this
    {
      (isTestPlaying, testCaption, calls)
    }

    function Form(): (string, string, Status, bool)
      reads this
    {
      (messageInput, emailInput, feedbackStatus, submitDisabled)
    }

    constructor()
      ensures Valid()
      ensures !isTestPlaying && calls == [] && alerts == [] && banners == {}
      ensures messageInput == "" && emailInput == "" && !submitDisabled
    {
      displayed := map[];
      navActive := map[];
      isTestPlaying := false;
      testCaption := TestVoiceCaption;
      calls := [];
      alerts := [];
      banners := {};
      messageInput := "";
      emailInput := "";
      feedbackStatus := Status(Idle, "");
      submitDisabled := false;
    }

    /** `showGeneralSection` and its four siblings: one flag at a time, the
        chosen button is activated and the others deactivated, the chosen
        section displayed and the others hidden. Afterwards exactly that
        section shows and exactly its button is active. */
    method ShowSection(section: Section)
      modifies this
      ensures forall t :: t in displayed && (displayed[t] <==> t == section)
      ensures forall t :: t in navActive && (navActive[t] <==> t == section)
      ensures Speech() == old(Speech()) && Form() == old(Form())
      ensures alerts == old(alerts) && banners == old(banners)
    {
      navActive := SelectOnly(navActive, section);
      displayed := SelectOnly(displayed, section);
    }

    /** `testVoice`: while a test plays, it is cancelled; otherwise a blank
        text raises an alert and nothing is spoken, and any other text is
        spoken, trimmed, with the voice `createTestUtterance` picks for the
        selected voice name (the same choice as the shared settings
        helper). There is no check that the browser can speak. */
    method TestVoice(text: string, voices: seq<Voice>, voiceName: string, speed: real)
      requires Valid()
      modifies this
      ensures Valid()
      ensures old(isTestPlaying) ==> !isTestPlaying && calls == old(calls) + [Cancel] && alerts == old(alerts)
      ensures !old(isTestPlaying) && Trim(text) == [] ==>
        !isTestPlaying && calls == old(calls) && alerts == old(alerts) + [TestTextRequired]
      ensures !old(isTestPlaying) && Trim(text) != [] ==>
        isTestPlaying && alerts == old(alerts)
        && calls == old(calls) + [Speak(Trim(text), GetVoiceFromSettings(voices, TtsSettings(voiceName, speed)))]
      ensures Sections() == old(Sections()) && Form() == old(Form()) && banners == old(banners)
    {
      if isTestPlaying {
        calls := calls + [Cancel];
        isTestPlaying := false;
        testCaption := TestVoiceCaption;
        return;
      }
      var trimmed := Trim(text);
      if trimmed == [] {
        alerts := alerts + [TestTextRequired];
        return;
      }
      calls := calls + [Speak(trimmed, GetVoiceFromSettings(voices, TtsSettings(voiceName, speed)))];
      isTestPlaying := true;
      testCaption := StopTestCaption;
    }

    /** The test utterance's `onend`. */
    method TestEnded()
      modifies this
      ensures Valid() && !isTestPlaying
      ensures calls == old(calls) && alerts == old(alerts)
      ensures Sections() == old(Sections()) && Form() == old(Form()) && banners == old(banners)
    {
      isTestPlaying := false;
      testCaption := TestVoiceCaption;
    }

    /** The test utterance's `onerror`: as `onend`, plus an alert. */
    method TestFailed()
      modifies this
      ensures Valid() && !isTestPlaying
      ensures calls == old(calls) && alerts == old(alerts) + [TestVoiceFailed]
      ensures Sections() == old(Sections()) && Form() == old(Form()) && banners == old(banners)
    {
      isTestPlaying := false;
      testCaption := TestVoiceCaption;
      alerts := alerts + [TestVoiceFailed];
    }

    /** `saveApiSettings`: the typed key is trimmed; a blank one raises an
        alert and nothing is written; otherwise the trimmed key is written
        as it is (not encrypted), and the success banner shows, or an alert
        when storage rejects. */
    method SaveApiSettings(store: SyncStore, input: string)
      modifies this, store
      ensures store.failure == old(store.failure)
      ensures Trim(input) == [] ==>
        alerts == old(alerts) + [ApiKeyRequired] && store.data == old(store.data)
        && banners == old(banners)
      ensures Trim(input) != [] && old(store.failure).None? ==>
        store.data == old(store.data)[KeyName := Text(Trim(input))]
        && banners == old(banners) + {Api} && alerts == old(alerts)
      ensures Trim(input) != [] && old(store.failure).Some? ==>
        alerts == old(alerts) + [SaveApiFailed] && store.data == old(store.data)
        && banners == old(banners)
      ensures Sections() == old(Sections()) && Speech() == old(Speech()) && Form() == old(Form())
    {
      var apiKey := Trim(input);
      if apiKey == [] {
        alerts := alerts + [ApiKeyRequired];
        return;
      }
      var r := store.Set(map[KeyName := Text(apiKey)]);
      if r.Ok? {
        assert old(store.data) + map[KeyName := Text(apiKey)] == old(store.data)[KeyName := Text(apiKey)];
        banners := banners + {Api};
      } else {
        alerts := alerts + [SaveApiFailed];
      }
    }

    /** `saveGeneralSettings`: the checkbox, the summary type and the theme
        read off the radios are written together, and the general success
        banner shows; what is written loads back with the radio that was
        checked. A rejected write raises an alert and writes nothing. */
    method SaveGeneralSettings(store: SyncStore, enableTooltip: bool, summaryType: string,
                               lightChecked: bool, darkChecked: bool)
      modifies this, store
      ensures old(store.failure).None? ==>
        store.data == old(store.data)["generalSettings" :=
          GeneralValue(GeneralSettings(enableTooltip, summaryType, ThemeFromRadios(lightChecked, darkChecked)))]
        && banners == old(banners) + {General} && alerts == old(alerts)
      ensures old(store.failure).None? ==>
        LoadedRadio(store) == Some(if lightChecked then LightRadio else if darkChecked then DarkRadio else AutoRadio)
      ensures old(store.failure).Some? ==>
        store.data == old(store.data) && banners == old(banners) && alerts == old(alerts) + [SaveGeneralFailed]
      ensures Sections() == old(Sections()) && Speech() == old(Speech()) && Form() == old(Form())
    {
      var theme := ThemeFromRadios(lightChecked, darkChecked);
      var r := Tts.SaveGeneralSettings(store, GeneralSettings(enableTooltip, summaryType, theme));
      if r.Ok? {
        banners := banners + {General};
      } else {
        alerts := alerts + [SaveGeneralFailed];
      }
    }

    /** `saveTtsSettings`: the chosen voice and the slider's speed are
        written, after which they load back, and the voice success banner
        shows; a rejected write raises an alert and writes nothing. */
    method SaveTtsSettings(store: SyncStore, voiceName: string, speed: real)
      modifies this, store
      ensures old(store.failure).None? ==>
        store.data == old(store.data)["ttsSettings" := TtsValue(TtsSettings(voiceName, speed))]
        && LoadTtsSettings(store) == TtsValue(TtsSettings(voiceName, speed))
        && banners == old(banners) + {TtsSection} && alerts == old(alerts)
      ensures old(store.failure).Some? ==>
        store.data == old(store.data) && banners == old(banners) && alerts == old(alerts) + [SaveTtsFailed]
      ensures Sections() == old(Sections()) && Speech() == old(Speech()) && Form() == old(Form())
    {
      var r := Tts.SaveTtsSettings(store, TtsSettings(voiceName, speed));
      if r.Ok? {
        banners := banners + {TtsSection};
      } else {
        alerts := alerts + [SaveTtsFailed];
      }
    }

    /** `handleFeedbackSubmit` up to the POST: the message and email are
        trimmed, then validated; a refusal shows its message and posts
        nothing, otherwise the status is loading, the submit button is
        disabled, and the trimmed message, with the trimmed email only when
        there is one, is posted. */
    method SubmitFeedback() returns (post: Option<FeedbackPost>)
      modifies this
      ensures Submission(feedbackStatus, post) == CheckFeedback(Trim(old(messageInput)), Trim(old(emailInput)))
      ensures submitDisabled == (post.Some? || old(submitDisabled))
      ensures messageInput == old(messageInput) && emailInput == old(emailInput)
      ensures Sections() == old(Sections()) && Speech() == old(Speech())
      ensures alerts == old(alerts) && banners == old(banners)
    {
      var checked := CheckFeedback(Trim(messageInput), Trim(emailInput));
      feedbackStatus := checked.status;
      post := checked.post;
      if post.Some? {
        submitDisabled := true;
      }
    }

    /** The end of the POST, `ok` being `response.ok` of a response that
        came back: success thanks the user and resets the form; anything
        else shows the send failure. Either way the button is enabled
        again. */
    method FeedbackSettled(ok: bool)
      modifies this
      ensures !submitDisabled
      ensures ok ==> feedbackStatus == Status(Success, Thanks) && messageInput == "" && emailInput == ""
      ensures !ok ==>
        feedbackStatus == Status(Failure, SendFailed)
        && messageInput == old(messageInput) && emailInput == old(emailInput)
      ensures Sections() == old(Sections()) && Speech() == old(Speech())
      ensures alerts == old(alerts) && banners == old(banners)
    {
      if ok {
        feedbackStatus := Status(Success, Thanks);
        messageInput := "";
        emailInput := "";
      } else {
        feedbackStatus := Status(Failure, SendFailed);
      }
      submitDisabled := false;
    }
  }

  /** Trimming only makes the lower bound harder to meet: a message this
      page accepts also passes the React page's untrimmed length check. */
  lemma TrimmedMessageLongEnough(message: string)
    requires MinLength <= |Trim(message)|
    ensures MinLength <= |message|
  {
    var a := TrimSlice(message);
  }

  /** The two pages disagree on a message of nineteen characters followed
      by a space: the React page accepts it, this page refuses it as too
      short. */
  lemma TrailingSpaceDivergence(x: string)
    requires |x| == 19 && !IsSpace(x[0]) && !IsSpace(x[18])
    ensures FeedbackError(x + " ", "") == None
    ensures FeedbackError(Trim(x + " "), Trim("")) == Some(TooShort)
  {
    assert AllSpace(" ") && AllSpace("");
    TrimPadded("", x, " ");
    assert "" + x + " " == x + " ";
    TrimOfTrimmed(x);
    TrimAllSpace("");
  }
}
