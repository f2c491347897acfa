/** The security helpers of the extension (src/utils/security.ts): API-key
    format check and masking, the salted Base64 obfuscation of the stored
    key, input sanitising, text and CSP validation, rate-limit identifiers.
    A value that is not a string is `None` wherever the code tests
    `typeof x !== "string"`. */
module Security {
  import opened Common
  import opened JsString
  import opened Base64
  import opened Storage

  /** The prefix put in front of the key before encoding. */
  const Salt: string := "SmartDigest_"

  /** The storage key of the obfuscated API key. */
  const ApiKeyField: string := "geminiApiKey"

  /** The storage key of the time of the last key update. */
  const LastUpdatedField: string := "apiKeyLastUpdated"

  /** `validateApiKey(apiKey, "gemini")`: the trimmed key is at least ten
      characters long and starts with `AIza`; empty and whitespace-only keys
      are refused by the same test. */
  function ValidateApiKey(apiKey: string): (ok: bool)
    ensures ok <==> |Trim(apiKey)| >= 10 && StartsWith(Trim(apiKey), "AIza")
  {
    if apiKey == "" then false
    else
      var trimmedKey := Trim(apiKey);
      if |trimmedKey| == 0 then false
      else |trimmedKey| >= 10 && StartsWith(trimmedKey, "AIza")
  }

  /** A whitespace-only key is never valid. */
  lemma ValidateApiKeyBlank(apiKey: string)
    requires AllSpace(apiKey)
    ensures !ValidateApiKey(apiKey)
  {
    TrimAllSpace(apiKey);
  }

  /** Whitespace pasted around a key does not change its validity. */
  lemma ValidateApiKeyPadded(p: string, apiKey: string, q: string)
    requires AllSpace(p) && AllSpace(q)
    ensures ValidateApiKey(p + apiKey + q) == ValidateApiKey(apiKey)
  {
    TrimPadded(p, apiKey, q);
  }

  /** `sanitizeApiKey`: the key for logs, as its first four characters,
      `...` and its last four, or `INVALID` for keys shorter than eight. */
  function SanitizeApiKey(apiKey: string): (masked: string)
    ensures |apiKey| < 8 ==> masked == "INVALID"
    ensures |apiKey| >= 8 ==>
      |masked| == 11 && masked[..4] == apiKey[..4] && masked[4..7] == "..."
      && masked[7..] == apiKey[|apiKey| - 4..]
  {
    if |apiKey| < 8 then "INVALID"
    else apiKey[..4] + "..." + apiKey[|apiKey| - 4..]
  }

  /** The mask depends on the first and last four characters only: keys that
      differ in the middle are logged alike. */
  lemma {:induction false} SanitizeApiKeyHidesMiddle(a: string, b: string)
    requires |a| >= 8 && |b| >= 8
    requires a[..4] == b[..4] && a[|a| - 4..] == b[|b| - 4..]
    ensures SanitizeApiKey(a) == SanitizeApiKey(b)
  {
    var ma := SanitizeApiKey(a);
    var mb := SanitizeApiKey(b);
    assert ma == ma[..4] + ma[4..7] + ma[7..];
    assert mb == mb[..4] + mb[4..7] + mb[7..];
  }

  /** The salt is ASCII: the salted key is Latin-1 exactly when the key is. */
  lemma SaltedLatin1(apiKey: string)
    ensures IsLatin1(Salt + apiKey) <==> IsLatin1(apiKey)
  {
    if IsLatin1(Salt + apiKey) {
      forall i | 0 <= i < |apiKey| ensures apiKey[i] as int < 256 {
        assert (Salt + apiKey)[|Salt| + i] == apiKey[i];
      }
    }
  }

  /** `encryptApiKey`: Base64 of the salted key; the empty string for an
      empty key and where `btoa` throws (a character beyond Latin-1). */
  function EncryptApiKey(apiKey: string): (encoded: string)
    ensures encoded == "" <==> apiKey == "" || !IsLatin1(apiKey)
  {
    SaltedLatin1(apiKey);
    if apiKey == "" then ""
    else if !IsLatin1(Salt + apiKey) then ""
    else
      var bytes := Latin1Bytes(Salt + apiKey);
      BtoaLength(bytes);
      Btoa(bytes)
  }

  /** `decryptApiKey`: the Base64 text decoded and the salt taken off; the
      empty string for empty input, for input `atob` refuses and for a
      decoding that does not start with the salt. */
  function DecryptApiKey(encryptedKey: string): (apiKey: string)
    ensures encryptedKey == "" ==> apiKey == ""
    ensures apiKey != "" ==>
      Atob(encryptedKey).Some? && BinaryString(Atob(encryptedKey).value) == Salt + apiKey
  {
    if encryptedKey == "" then ""
    else
      match Atob(encryptedKey)
      case None => ""
      case Some(bytes) =>
        var decoded := BinaryString(bytes);
        if StartsWith(decoded, Salt) then
          assert decoded == Salt + decoded[|Salt|..];
          decoded[|Salt|..]
        else ""
  }

  /** The obfuscation round trip: every non-empty Latin-1 key is recovered
      from its encoding. */
  lemma EncryptDecryptRoundTrip(apiKey: string)
    requires apiKey != "" && IsLatin1(apiKey)
    ensures DecryptApiKey(EncryptApiKey(apiKey)) == apiKey
  {
    var salted := Salt + apiKey;
    assert IsLatin1(salted);
    var bytes := Latin1Bytes(salted);
    BtoaAtobRoundTrip(bytes);
    Latin1RoundTrip(salted);
    assert BinaryString(bytes)[..|Salt|] == Salt;
    assert BinaryString(bytes)[|Salt|..] == apiKey;
  }

  /** The items `storeApiKeySecurely` writes. */
  function StoredKeyEntries(apiKey: string, now: int): map<string, StoredValue>
  {
    map[ApiKeyField := Text(EncryptApiKey(apiKey)), LastUpdatedField := Number(now)]
  }

  /** `retrieveApiKeySecurely` on a given storage content: the decrypted key,
      or the empty string when none (or an empty one) is stored. */
  function RetrieveFrom(data: map<string, StoredValue>): (apiKey: string)
    ensures ApiKeyField !in data ==> apiKey == ""
  {
    if ApiKeyField !in data then ""
    else
      match data[ApiKeyField]
      case Text(encryptedKey) => if encryptedKey == "" then "" else DecryptApiKey(encryptedKey)
      case _ => ""
  }

  /** A stored key is retrieved as it was given. */
  lemma RetrieveAfterStore(data: map<string, StoredValue>, apiKey: string, now: int)
    requires Trim(apiKey) != [] && IsLatin1(apiKey)
    ensures RetrieveFrom(data + StoredKeyEntries(apiKey, now)) == apiKey
  {
    assert apiKey != "";
    EncryptDecryptRoundTrip(apiKey);
  }

  /** `storeApiKeySecurely`: a blank key is refused with "API key is
      required" and nothing is written; otherwise the encrypted key and the
      update time are written, and a storage rejection is passed on. */
  method StoreApiKeySecurely(store: SyncStore, apiKey: string, now: int) returns (r: Result<(), JsError>)
    modifies store
    ensures store.failure == old(store.failure)
    ensures Trim(apiKey) == [] ==> r == Err(Error("API key is required")) && store.data == old(store.data)
    ensures Trim(apiKey) != [] && old(store.failure).Some? ==>
      r == Err(old(store.failure).value) && store.data == old(store.data)
    ensures Trim(apiKey) != [] && old(store.failure).None? ==>
      r.Ok? && store.data == old(store.data) + StoredKeyEntries(apiKey, now)
    ensures r.Ok? && IsLatin1(apiKey) ==> RetrieveApiKeySecurely(store) == apiKey
    ensures r.Ok? && IsLatin1(apiKey) ==> HasValidApiKey(store) == ValidateApiKey(apiKey)
  {
    if Trim(apiKey) == [] {
      return Err(Error("API key is required"));
    }
    var encryptedKey := EncryptApiKey(apiKey);
    r := store.Set(map[ApiKeyField := Text(encryptedKey), LastUpdatedField := Number(now)]);
    if r.Ok? && IsLatin1(apiKey) {
      RetrieveAfterStore(old(store.data), apiKey, now);
    }
  }

  /** `retrieveApiKeySecurely`: the key decrypted from storage, or the
      empty string when there is none or storage rejects the read. */
  function RetrieveApiKeySecurely(store: SyncStore): (apiKey: string)
    reads store
    ensures store.failure.Some? ==> apiKey == ""
  {
    match store.Get(ApiKeyField)
    case Err(_) => ""
    case Ok(_) => RetrieveFrom(store.data)
  }

  /** `clearApiKey`: the key and its update time removed; a storage
      rejection is passed on. */
  method ClearApiKey(store: SyncStore) returns (r: Result<(), JsError>)
    modifies store
    ensures store.failure == old(store.failure)
    ensures old(store.failure).None? ==>
      r.Ok? && store.data == old(store.data) - {ApiKeyField, LastUpdatedField}
    ensures old(store.failure).Some? ==> r.Err? && store.data == old(store.data)
    ensures r.Ok? ==> RetrieveApiKeySecurely(store) == ""
    ensures r.Ok? ==> !HasValidApiKey(store)
  {
    r := store.Remove({ApiKeyField, LastUpdatedField});
  }

  /** `hasValidApiKey`: whether the retrieved key passes `validateApiKey`;
      a rejected read retrieves nothing and so gives `false`. */
  function HasValidApiKey(store: SyncStore): (ok: bool)
    reads store
    ensures ok <==>
      |Trim(RetrieveApiKeySecurely(store))| >= 10 && StartsWith(Trim(RetrieveApiKeySecurely(store)), "AIza")
    ensures store.failure.Some? ==> !ok
  {
    ValidateApiKey(RetrieveApiKeySecurely(store))
  }

  /** On storage contents: a well-formed Latin-1 key, once stored, is
      retrieved as a valid key, and once the two items are removed the
      retrieved key is no longer valid. */
  lemma ValidKeyStoredThenCleared(data: map<string, StoredValue>, apiKey: string, now: int)
    requires ValidateApiKey(apiKey) && IsLatin1(apiKey)
    ensures ValidateApiKey(RetrieveFrom(data + StoredKeyEntries(apiKey, now)))
    ensures !ValidateApiKey(RetrieveFrom(data + StoredKeyEntries(apiKey, now) - {ApiKeyField, LastUpdatedField}))
  {
    assert Trim(apiKey) != [];
    RetrieveAfterStore(data, apiKey, now);
  }

  /** Whether `s` starts with `pat`, letters compared case-insensitively
      (`pat` is written in lower case), as `/pat/i` matches. */
  predicate StartsWithIgnoringCase(s: string, pat: string)
  {
    |pat| <= |s| && forall i :: 0 <= i < |pat| ==> LowerAscii(s[i]) == pat[i]
  }

  /** `s.replace(/pat/gi, "")`: one left-to-right pass that deletes every
      match and resumes after it. */
  function RemoveAllIgnoringCase(s: string, pat: string): (r: string)
    requires pat != []
    ensures |r| <= |s|
    ensures forall c :: c in r ==> c in s
    decreases |s|
  {
    if s == [] then []
    else if StartsWithIgnoringCase(s, pat) then RemoveAllIgnoringCase(s[|pat|..], pat)
    else [s[0]] + RemoveAllIgnoringCase(s[1..], pat)
  }

  /** A pattern holding a character that the text does not hold (in any
      letter case) leaves the text untouched. */
  lemma {:induction false} RemoveAbsent(s: string, pat: string, c: char)
    requires pat != [] && c in pat
    requires forall i :: 0 <= i < |s| ==> LowerAscii(s[i]) != c
    ensures RemoveAllIgnoringCase(s, pat) == s
    decreases |s|
  {
    if s != [] {
      assert !StartsWithIgnoringCase(s, pat);
      RemoveAbsent(s[1..], pat, c);
    }
  }

  /** A match is removed: a text that holds the pattern (in any letter
      case) at some position loses at least the pattern's length. */
  lemma {:induction false} MatchRemoved(s: string, pat: string, i: nat)
    requires pat != [] && i + |pat| <= |s| && StartsWithIgnoringCase(s[i..], pat)
    ensures |RemoveAllIgnoringCase(s, pat)| <= |s| - |pat|
    decreases |s|
  {
    if StartsWithIgnoringCase(s, pat) {
    } else {
      assert i > 0;
      assert s[1..][i - 1..] == s[i..];
      MatchRemoved(s[1..], pat, i - 1);
    }
  }

  /** A prefix at none of whose positions a match starts is kept as it is,
      and the pass carries on after it. */
  lemma {:induction false} RemoveAfterSkipped(a: string, b: string, pat: string)
    requires pat != []
    requires forall k :: 0 <= k < |a| ==> !StartsWithIgnoringCase((a + b)[k..], pat)
    ensures RemoveAllIgnoringCase(a + b, pat) == a + RemoveAllIgnoringCase(b, pat)
    decreases |a|
  {
    if a == [] {
      assert a + b == b;
    } else {
      assert (a + b)[0..] == a + b;
      assert (a + b)[1..] == a[1..] + b;
      forall k | 0 <= k < |a[1..]| ensures !StartsWithIgnoringCase((a[1..] + b)[k..], pat) {
        assert (a[1..] + b)[k..] == (a + b)[k + 1..];
      }
      RemoveAfterSkipped(a[1..], b, pat);
    }
  }

  /** The first four letters of the nested text start no match. */
  lemma NestedSkipsPrefix(p: string, s: string)
    requires p == "javascript:" && s == "java" + p + "script:"
    ensures RemoveAllIgnoringCase(s, p) == "java" + RemoveAllIgnoringCase(p + "script:", p)
  {
    var b := p + "script:";
    assert s == "java" + b;
    forall k | 0 <= k < 4 ensures !StartsWithIgnoringCase(s[k..], p) {
      if k == 0 {
        assert LowerAscii(s[k..][4]) != p[4];
      } else {
        assert LowerAscii(s[k..][0]) != p[0];
      }
    }
    RemoveAfterSkipped("java", b, p);
  }

  /** The inner `javascript:` is a match, and what follows it holds none. */
  lemma NestedInnerMatch(p: string, b: string)
    requires p == "javascript:" && b == p + "script:"
    ensures RemoveAllIgnoringCase(b, p) == "script:"
  {
    assert StartsWithIgnoringCase(b, p) by {
      forall i | 0 <= i < |p| ensures LowerAscii(b[i]) == p[i] {
        assert i == 0 || i == 1 || i == 2 || i == 3 || i == 4 || i == 5 || i == 6 || i == 7 || i == 8
          || i == 9 || i == 10;
      }
    }
    var rest := b[|p|..];
    assert rest == "script:";
    forall i | 0 <= i < |rest| ensures LowerAscii(rest[i]) != 'j' {
      assert i == 0 || i == 1 || i == 2 || i == 3 || i == 4 || i == 5 || i == 6;
    }
    RemoveAbsent(rest, p, 'j');
  }

  /** The pass does not rescan what it has produced: `javascript:` nested
      inside itself, after its first four letters, comes out whole. */
  lemma NestedPatternSurvives(p: string, s: string)
    requires p == "javascript:" && s == "java" + p + "script:"
    ensures RemoveAllIgnoringCase(s, p) == p
  {
    NestedSkipsPrefix(p, s);
    NestedInnerMatch(p, p + "script:");
  }

  /** The nested text holds no angle bracket. */
  lemma NestedHasNoAngles(p: string, s: string)
    requires p == "javascript:" && s == "java" + p + "script:"
    ensures StripAngles(s) == s
  {
    assert |s| == 22;
    forall c | c in s ensures !IsAngle(c) {
      var i :| 0 <= i < |s| && s[i] == c;
      if i < 11 {
        assert i == 0 || i == 1 || i == 2 || i == 3 || i == 4 || i == 5 || i == 6 || i == 7 || i == 8
          || i == 9 || i == 10;
      } else {
        assert i == 11 || i == 12 || i == 13 || i == 14 || i == 15 || i == 16 || i == 17 || i == 18
          || i == 19 || i == 20 || i == 21;
      }
    }
    StripAnglesNoOp(s);
  }

  /** `javascript:` holds no `d`, so the `data:` pass leaves it alone. */
  lemma SchemeHasNoData(p: string)
    requires p == "javascript:"
    ensures RemoveAllIgnoringCase(p, "data:") == p
  {
    forall i | 0 <= i < |p| ensures LowerAscii(p[i]) != 'd' {
      assert i == 0 || i == 1 || i == 2 || i == 3 || i == 4 || i == 5 || i == 6 || i == 7 || i == 8
        || i == 9 || i == 10;
    }
    RemoveAbsent(p, "data:", 'd');
  }

  /** So `sanitizeInput` lets `javascript:` through when it is nested in
      itself. */
  lemma SanitizeNestedScheme(p: string, s: string)
    requires p == "javascript:" && s == "java" + p + "script:"
    ensures SanitizeInput(Some(s)) == p
  {
    NestedHasNoAngles(p, s);
    NestedPatternSurvives(p, s);
    SchemeHasNoData(p);
    TrimOfTrimmed(p);
  }

  /** `sanitizeInput`: angle brackets deleted, then `javascript:` and then
      `data:` (any letter case) in one pass each, then the ends trimmed; a
      value that is not a string gives the empty string. */
  function SanitizeInput(input: Option<string>): (r: string)
    ensures forall i :: 0 <= i < |r| ==> !IsAngle(r[i])
    ensures r == [] || (!IsSpace(r[0]) && !IsSpace(r[|r| - 1]))
    ensures input.Some? ==> forall c :: c in r ==> c in input.value
    ensures input.None? ==> r == ""
  {
    match input
    case None => ""
    case Some(text) =>
      var noAngles := StripAngles(text);
      var noScript := RemoveAllIgnoringCase(noAngles, "javascript:");
      var noData := RemoveAllIgnoringCase(noScript, "data:");
      TrimEdges(noData);
      assert forall i :: 0 <= i < |Trim(noData)| ==> !IsAngle(Trim(noData)[i]) by {
        forall i | 0 <= i < |Trim(noData)| ensures !IsAngle(Trim(noData)[i]) {
          assert Trim(noData)[i] in Trim(noData);
        }
      }
      Trim(noData)
  }

  /** A `javascript:` left after the angle brackets are stripped (in any
      letter case) is taken out: the sanitised text is shorter by at least
      its eleven characters. */
  lemma SanitizeRemovesScheme(text: string, i: nat)
    requires i + 11 <= |StripAngles(text)| && StartsWithIgnoringCase(StripAngles(text)[i..], "javascript:")
    ensures |SanitizeInput(Some(text))| <= |StripAngles(text)| - 11
  {
    var noAngles := StripAngles(text);
    var noScript := RemoveAllIgnoringCase(noAngles, "javascript:");
    var noData := RemoveAllIgnoringCase(noScript, "data:");
    MatchRemoved(noAngles, "javascript:", i);
    var a := TrimSlice(noData);
    assert SanitizeInput(Some(text)) == Trim(noData);
  }

  /** Text with no angle bracket, no colon and no whitespace at its ends
      passes `sanitizeInput` unchanged. */
  lemma SanitizeInputPlainText(text: string)
    requires forall i :: 0 <= i < |text| ==> !IsAngle(text[i])
    requires ':' !in text
    requires text == [] || (!IsSpace(text[0]) && !IsSpace(text[|text| - 1]))
    ensures SanitizeInput(Some(text)) == text
  {
    forall c | c in text ensures !IsAngle(c) {
      var i :| 0 <= i < |text| && text[i] == c;
    }
    forall i | 0 <= i < |text| ensures LowerAscii(text[i]) != ':' {
      assert text[i] in text;
    }
    StripAnglesNoOp(text);
    RemoveAbsent(text, "javascript:", ':');
    RemoveAbsent(text, "data:", ':');
    TrimOfTrimmed(text);
  }

  /** The outcome of `validateSummarizationText`. */
  datatype TextValidation = TextValidation(isValid: bool, sanitizedText: string, error: Option<string>)

  /** `validateSummarizationText`: the input sanitised and required to be
      between 10 and 50,000 characters long. */
  function ValidateSummarizationText(text: Option<string>): (v: TextValidation)
    ensures text.None? || text == Some("") ==>
      v == TextValidation(false, "", Some("Invalid input provided"))
    ensures text.Some? && text != Some("") ==> v.sanitizedText == SanitizeInput(text)
    ensures v.isValid <==> v.error.None?
    ensures v.isValid <==> text.Some? && text != Some("") && 10 <= |SanitizeInput(text)| <= 50000
    ensures text.Some? && text != Some("") && |SanitizeInput(text)| < 10 ==>
      v.error == Some("Text must be at least 10 characters long")
    ensures text.Some? && text != Some("") && |SanitizeInput(text)| > 50000 ==>
      v.error == Some("Text is too long (maximum 50,000 characters)")
  {
    if text.None? || text == Some("") then
      TextValidation(false, "", Some("Invalid input provided"))
    else
      var sanitized := SanitizeInput(text);
      if |sanitized| < 10 then
        TextValidation(false, sanitized, Some("Text must be at least 10 characters long"))
      else if |sanitized| > 50000 then
        TextValidation(false, sanitized, Some("Text is too long (maximum 50,000 characters)"))
      else
        TextValidation(true, sanitized, None)
  }

  /** A valid text is one the sanitiser's guarantees hold for: no angle
      bracket, trimmed, within the limits. */
  lemma ValidTextIsClean(text: Option<string>)
    requires ValidateSummarizationText(text).isValid
    ensures var t := ValidateSummarizationText(text).sanitizedText;
      10 <= |t| <= 50000 && !IsSpace(t[0]) && !IsSpace(t[|t| - 1])
      && forall i :: 0 <= i < |t| ==> !IsAngle(t[i])
  {
    var v := ValidateSummarizationText(text);
    assert text.Some? && text != Some("");
    var t := SanitizeInput(text);
    assert v.sanitizedText == t;
    assert 10 <= |t| <= 50000;
  }

  /** The directive names `validateCSP` accepts. */
  const AllowedDirectives: seq<string> := ["script-src", "object-src", "style-src", "img-src", "connect-src"]

  /** Every element trimmed: `.map((d) => d.trim())`. */
  function TrimEach(parts: seq<string>): (r: seq<string>)
    ensures |r| == |parts| && forall k :: 0 <= k < |parts| ==> r[k] == Trim(parts[k])
  {
    if parts == [] then [] else [Trim(parts[0])] + TrimEach(parts[1..])
  }

  /** The directives of a policy: its `;`-separated parts, trimmed. */
  function Directives(csp: string): seq<string>
  {
    TrimEach(Split(csp, ';'))
  }

  /** A directive is accepted when its first space-separated token is empty
      or an allowed name. */
  predicate DirectiveAllowed(directive: string)
  {
    var name := FirstToken(directive);
    name == [] || IsAllowedName(name)
  }

  /** Membership in the allowed list, `allowedDirectives.includes(name)`. */
  predicate IsAllowedName(name: string)
  {
    name in AllowedDirectives
  }

  /** `directive.split(" ")[0]`. */
  function FirstToken(directive: string): string
  {
    Split(directive, ' ')[0]
  }

  /** Whether every directive of a policy is accepted. */
  predicate AllDirectivesAllowed(directives: seq<string>)
  {
    forall k :: 0 <= k < |directives| ==> DirectiveAllowed(directives[k])
  }

  /** The loop of `validateCSP`: the directives examined in order, the
      first one with a name outside the allowed list rejecting the policy. */
  method CheckDirectives(directives: seq<string>) returns (ok: bool)
    ensures ok <==> AllDirectivesAllowed(directives)
  {
    var i := 0;
    while i < |directives|
      invariant 0 <= i <= |directives|
      invariant forall k :: 0 <= k < i ==> DirectiveAllowed(directives[k])
    {
      var name := FirstToken(directives[i]);
      if name != [] && !IsAllowedName(name) {
        return false;
      }
      i := i + 1;
    }
    return true;
  }

  /** `validateCSP`: the policy split at `;`, each part trimmed, and every
      directive required to be accepted. */
  method ValidateCsp(csp: string) returns (ok: bool)
    ensures ok <==> AllDirectivesAllowed(Directives(csp))
  {
    var directives := TrimEach(Split(csp, ';'));
    ok := CheckDirectives(directives);
  }

  /** `generateRateLimitId(userId)`: the user (or `anonymous`) and the index
      of the current one-minute window, joined by `_`. */
  function GenerateRateLimitId(userId: Option<string>, now: nat): (id: string)
    ensures userId.Some? && userId.value != "" ==> StartsWith(id, userId.value + "_")
    ensures userId.None? || userId.value == "" ==> StartsWith(id, "anonymous_")
  {
    var timestamp := now / 60000;
    if userId.Some? && userId.value != "" then userId.value + "_" + NatToString(timestamp)
    else "anonymous_" + NatToString(timestamp)
  }

  /** Two calls for the same user give the same identifier exactly when they
      fall in the same one-minute window. */
  lemma RateLimitIdWindow(userId: Option<string>, t1: nat, t2: nat)
    ensures GenerateRateLimitId(userId, t1) == GenerateRateLimitId(userId, t2) <==> t1 / 60000 == t2 / 60000
  {
    var prefix := if userId.Some? && userId.value != "" then userId.value + "_" else "anonymous_";
    var a := NatToString(t1 / 60000);
    var b := NatToString(t2 / 60000);
    assert GenerateRateLimitId(userId, t1) == prefix + a;
    assert GenerateRateLimitId(userId, t2) == prefix + b;
    if prefix + a == prefix + b {
      assert a == (prefix + a)[|prefix|..];
      assert b == (prefix + b)[|prefix|..];
      NatToStringRoundTrip(t1 / 60000);
      NatToStringRoundTrip(t2 / 60000);
    }
  }
}
