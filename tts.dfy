/** The text-to-speech and general settings helpers (src/utils/tts.ts):
    their defaults, the voice chosen from a setting, and loading and saving
    the settings over the sync store. */
module Tts {
  import opened Common
  import opened JsString
  import opened Storage

  /** A voice the speech engine offers, as far as the choice reads it. */
  datatype Voice = Voice(name: string)

  /** A call made on `speechSynthesis`: cancel everything, speak a text
      with a chosen voice, pause, resume. */
  datatype SpeechCall = Cancel | Speak(text: string, voice: Option<Voice>) | Pause | Resume

  /** The voice name the default settings ask for. */
  const GoogleUsEnglish: string := "Google US English"

  /** `DEFAULT_TTS_SETTINGS`. */
  const DefaultTtsSettings: TtsSettings := TtsSettings(GoogleUsEnglish, 1.0)

  /** `DEFAULT_GENERAL_SETTINGS`. */
  const DefaultGeneralSettings: GeneralSettings := GeneralSettings(true, "brief", "auto")

  /** Whether a voice answers a setting: for the default voice name, a
      name that contains it; for any other name, exactly that name. */
  predicate Matches(settings: TtsSettings, w: Voice)
  {
    if settings.voice == GoogleUsEnglish then Contains(w.name, GoogleUsEnglish) else w.name == settings.voice
  }

  /** `voices.find(...)` for a setting: the first voice that answers it. */
  function FirstMatch(voices: seq<Voice>, settings: TtsSettings): Option<Voice>
  {
    if voices == [] then None
    else if Matches(settings, voices[0]) then Some(voices[0])
    else FirstMatch(voices[1..], settings)
  }

  /** `getVoiceFromSettings(voices, settings)`: the voice `find` returns,
      failing that the first voice (`|| voices[0]`), and nothing when there
      are no voices. */
  function GetVoiceFromSettings(voices: seq<Voice>, settings: TtsSettings): (v: Option<Voice>)
    ensures v.None? <==> voices == []
  {
    match FirstMatch(voices, settings)
    case Some(w) => Some(w)
    case None => if voices != [] then Some(voices[0]) else None
  }

  /** When `find` returns a voice, it is the first that answers the
      setting; `k` is its index. */
  lemma {:induction false} FirstMatchAt(voices: seq<Voice>, settings: TtsSettings) returns (k: nat)
    requires FirstMatch(voices, settings).Some?
    ensures k < |voices| && FirstMatch(voices, settings) == Some(voices[k]) && Matches(settings, voices[k])
    ensures forall j :: 0 <= j < k ==> !Matches(settings, voices[j])
  {
    if Matches(settings, voices[0]) {
      k := 0;
    } else {
      var k' := FirstMatchAt(voices[1..], settings);
      k := k' + 1;
      assert voices[k] == voices[1..][k'];
      forall j | 0 < j < k ensures !Matches(settings, voices[j]) {
        assert voices[j] == voices[1..][j - 1];
      }
    }
  }

  /** When `find` returns nothing, no voice answers the setting. */
  lemma {:induction false} FirstMatchNone(voices: seq<Voice>, settings: TtsSettings)
    requires FirstMatch(voices, settings).None?
    ensures forall j :: 0 <= j < |voices| ==> !Matches(settings, voices[j])
  {
    if voices != [] {
      FirstMatchNone(voices[1..], settings);
      forall j | 0 < j < |voices| ensures !Matches(settings, voices[j]) {
        assert voices[j] == voices[1..][j - 1];
      }
    }
  }

  /** The choice `getVoiceFromSettings` makes: one of the offered voices,
      the first that answers the setting when any does, else the first. */
  lemma GetVoiceFromSettingsChoice(voices: seq<Voice>, settings: TtsSettings)
    ensures GetVoiceFromSettings(voices, settings).Some? ==> GetVoiceFromSettings(voices, settings).value in voices
    ensures (exists j :: 0 <= j < |voices| && Matches(settings, voices[j])) ==>
      exists k :: 0 <= k < |voices| && GetVoiceFromSettings(voices, settings) == Some(voices[k])
                  && Matches(settings, voices[k]) && forall j :: 0 <= j < k ==> !Matches(settings, voices[j])
    ensures voices != [] && (forall j :: 0 <= j < |voices| ==> !Matches(settings, voices[j])) ==>
      GetVoiceFromSettings(voices, settings) == Some(voices[0])
  {
    if FirstMatch(voices, settings).Some? {
      var k := FirstMatchAt(voices, settings);
    } else {
      FirstMatchNone(voices, settings);
    }
  }

  /** Loading a settings entry: the stored value when it is truthy,
      otherwise (absent, falsy, or a rejected read) the default. */
  function LoadOr(lookup: Result<Option<StoredValue>, JsError>, default: StoredValue): (v: StoredValue)
    ensures lookup.Ok? && lookup.value.Some? && Truthy(lookup.value.value) ==> v == lookup.value.value
    ensures lookup.Err? || lookup.value.None? || !Truthy(lookup.value.value) ==> v == default
  {
    match lookup
    case Err(_) => default
    case Ok(None) => default
    case Ok(Some(stored)) => if Truthy(stored) then stored else default
  }

  /** `loadTTSSettings()`. */
  function LoadTtsSettings(store: SyncStore): (v: StoredValue)
    reads store
    ensures store.failure.Some? ==> v == TtsValue(DefaultTtsSettings)
    ensures store.failure.None? && "ttsSettings" !in store.data ==> v == TtsValue(DefaultTtsSettings)
    ensures store.failure.None? && "ttsSettings" in store.data && store.data["ttsSettings"].TtsValue? ==>
      v == store.data["ttsSettings"]
  {
    LoadOr(store.Get("ttsSettings"), TtsValue(DefaultTtsSettings))
  }

  /** `loadGeneralSettings()`. */
  function LoadGeneralSettings(store: SyncStore): (v: StoredValue)
    reads store
    ensures store.failure.Some? ==> v == GeneralValue(DefaultGeneralSettings)
    ensures store.failure.None? && "generalSettings" !in store.data ==> v == GeneralValue(DefaultGeneralSettings)
    ensures store.failure.None? && "generalSettings" in store.data && store.data["generalSettings"].GeneralValue? ==>
      v == store.data["generalSettings"]
  {
    LoadOr(store.Get("generalSettings"), GeneralValue(DefaultGeneralSettings))
  }

  /** `saveTTSSettings(settings)`: the settings written, or the rejection
      passed on with nothing written; what was saved is what loads. */
  method SaveTtsSettings(store: SyncStore, settings: TtsSettings) returns (r: Result<(), JsError>)
    modifies store
    ensures store.failure == old(store.failure)
    ensures r.Ok? <==> old(store.failure).None?
    ensures r.Ok? ==> store.data == old(store.data)["ttsSettings" := TtsValue(settings)]
    ensures r.Ok? ==> LoadTtsSettings(store) == TtsValue(settings)
    ensures r.Err? ==> store.data == old(store.data)
  {
    r := store.Set(map["ttsSettings" := TtsValue(settings)]);
    if r.Ok? {
      assert old(store.data) + map["ttsSettings" := TtsValue(settings)]
          == old(store.data)["ttsSettings" := TtsValue(settings)];
    }
  }

  /** `saveGeneralSettings(settings)`: as for the speech settings. */
  method SaveGeneralSettings(store: SyncStore, settings: GeneralSettings) returns (r: Result<(), JsError>)
    modifies store
    ensures store.failure == old(store.failure)
    ensures r.Ok? <==> old(store.failure).None?
    ensures r.Ok? ==> store.data == old(store.data)["generalSettings" := GeneralValue(settings)]
    ensures r.Ok? ==> LoadGeneralSettings(store) == GeneralValue(settings)
    ensures r.Err? ==> store.data == old(store.data)
  {
    r := store.Set(map["generalSettings" := GeneralValue(settings)]);
    if r.Ok? {
      assert old(store.data) + map["generalSettings" := GeneralValue(settings)]
          == old(store.data)["generalSettings" := GeneralValue(settings)];
    }
  }

  /** The default voice setting picks the first Google US English voice
      when there is one. */
  lemma DefaultPicksGoogle(voices: seq<Voice>, k: nat)
    requires k < |voices| && Contains(voices[k].name, GoogleUsEnglish)
    ensures GetVoiceFromSettings(voices, DefaultTtsSettings).Some?
    ensures Contains(GetVoiceFromSettings(voices, DefaultTtsSettings).value.name, GoogleUsEnglish)
  {
    assert Matches(DefaultTtsSettings, voices[k]);
    GetVoiceFromSettingsChoice(voices, DefaultTtsSettings);
  }
}
