/** `chrome.storage.sync` as the extension uses it: a key-value map of the
    settings and the (obfuscated) API key, whose calls either succeed or
    reject with an error the platform chooses. */
module Storage {
  import opened Common

  /** Text-to-speech settings: the voice name and the speaking rate. */
  datatype TtsSettings = TtsSettings(voice: string, speed: real)

  /** The general settings of the options page. */
  datatype GeneralSettings = GeneralSettings(enableTooltip: bool, defaultSummaryType: string, theme: string)

  /** A value kept under a storage key. */
  datatype StoredValue =
    | Text(text: string)
    | Number(number: int)
    | Flag(flag: bool)
    | TtsValue(tts: TtsSettings)
    | GeneralValue(general: GeneralSettings)

  /** JavaScript truthiness of a stored value: the empty string, zero and
      `false` are falsy, every object is truthy. */
  predicate Truthy(v: StoredValue)
  {
    match v
    case Text(s) => s != ""
    case Number(n) => n != 0
    case Flag(b) => b
    case TtsValue(_) => true
    case GeneralValue(_) => true
  }

  /** The storage area. `failure` is the error every call rejects with
      while the platform refuses storage access (quota, context gone). */
  class SyncStore {
    var data: map<string, StoredValue>
    var failure: Option<JsError>

    constructor(data0: map<string, StoredValue>, failure0: Option<JsError>)
      ensures data == data0 && failure == failure0
    {
      data := data0;
      failure := failure0;
    }

    /** `chrome.storage.sync.get([key])`: the stored value, if any, or the
        rejection. */
    function Get(key: string): (r: Result<Option<StoredValue>, JsError>)
      reads this
      ensures failure.Some? <==> r.Err?
      ensures r.Ok? ==> (r.value.Some? <==> key in data)
      ensures r.Ok? && r.value.Some? ==> r.value.value == data[key]
    {
      match failure
      case Some(e) => Err(e)
      case None => Ok(if key in data then Some(data[key]) else None)
    }

    /** `chrome.storage.sync.set(items)`: every item written, or nothing
        written when the call rejects. */
    method Set(items: map<string, StoredValue>) returns (r: Result<(), JsError>)
      modifies this
      ensures failure == old(failure)
      ensures old(failure).None? ==> r.Ok? && data == old(data) + items
      ensures old(failure).Some? ==> r == Err(old(failure).value) && data == old(data)
    {
      match failure
      case Some(e) =>
        r := Err(e);
      case None =>
        data := data + items;
        r := Ok(());
    }

    /** `chrome.storage.sync.remove(keys)`: every key removed, or nothing
        removed when the call rejects. */
    method Remove(keys: set<string>) returns (r: Result<(), JsError>)
      modifies this
      ensures failure == old(failure)
      ensures old(failure).None? ==> r.Ok? && data == old(data) - keys
      ensures old(failure).Some? ==> r == Err(old(failure).value) && data == old(data)
    {
      match failure
      case Some(e) =>
        r := Err(e);
      case None =>
        data := data - keys;
        r := Ok(());
    }
  }
}
