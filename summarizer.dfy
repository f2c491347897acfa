/** The older JavaScript client (src/summarizer.js): a sliding-window request
    limiter over the module's `requestHistory`, the key and text checks run
    in a fixed order, the prompt map, the mapping of the Gemini reply to a
    summary or an error, and the normalisation of every error into a known
    message. Time is the parameter `now`; the request's reply is the
    parameter `reply`. */
module Summarizer {
  import opened Common
  import opened JsString
  import Security

  /** The emoji that open the messages. */
  const CrossMark: string := "\U{274C} "
  const Lock: string := "\U{1F510} "
  const Hourglass: string := "\U{23F3} "
  const NoEntry: string := "\U{1F6AB} "
  const Warning: string := "\U{26A0}\U{FE0F} "
  const Robot: string := "\U{1F916} "

  /** `ERROR_MESSAGES`. */
  const ApiKeyMissing: string := CrossMark + "Gemini API key not set. Please enter your key in the options page."
  const ApiKeyInvalid: string := Lock + "Your API key is invalid or expired. Please update it in options."
  const RateLimited: string := Hourglass + "You've hit the usage limit. Please wait and try again."
  const NetworkError: string :=
    NoEntry + "Network error occurred. Please check your internet connection or try again later."
  const EmptySummary: string :=
    Warning + "Summary couldn't be generated. Try selecting more meaningful content or adjusting input."
  const UnknownError: string := CrossMark + "An unexpected error occurred. Please try again."
  const GeminiError: string := Robot + "Gemini API error: "
  const InvalidResponse: string := Warning + "Invalid response from Gemini API. Please try again."
  const NoContent: string := Warning + "No content found to summarize. Please select more text."

  /** The values of `ERROR_MESSAGES`: the errors passed on unchanged. */
  const KnownMessages: set<string> :=
    {ApiKeyMissing, ApiKeyInvalid, RateLimited, NetworkError, EmptySummary,
     UnknownError, GeminiError, InvalidResponse, NoContent}

  /** `RATE_LIMIT`. */
  const MaxRequests: nat := 10
  const WindowMs: int := 60000

  /** The timestamps still inside the window at `now`, in their order. */
  function Recent(history: seq<int>, now: int): (r: seq<int>)
    ensures |r| <= |history|
    ensures forall t :: t in r <==> t in history && now - t < WindowMs
  {
    if history == [] then []
    else if now - history[0] < WindowMs then [history[0]] + Recent(history[1..], now)
    else Recent(history[1..], now)
  }

  /** Filtering distributes over concatenation. */
  lemma {:induction false} RecentAppend(a: seq<int>, b: seq<int>, now: int)
    ensures Recent(a + b, now) == Recent(a, now) + Recent(b, now)
  {
    if a == [] {
      assert a + b == b;
    } else {
      assert (a + b)[0] == a[0];
      assert (a + b)[1..] == a[1..] + b;
      RecentAppend(a[1..], b, now);
    }
  }

  /** Filtering at a time and then at a later one is filtering at the later
      one: what has left the window does not come back. */
  lemma {:induction false} RecentLater(history: seq<int>, earlier: int, later: int)
    requires earlier <= later
    ensures Recent(Recent(history, earlier), later) == Recent(history, later)
  {
    if history != [] {
      RecentLater(history[1..], earlier, later);
    }
  }

  /** The result of one `isRateLimited()` call: whether it refused, and the
      history it leaves. */
  datatype Check = Check(limited: bool, history: seq<int>)

  /** `isRateLimited()` at time `now`: the history loses the timestamps that
      left the window; with ten or more left the call refuses and records
      nothing, otherwise it records `now` and admits. */
  function IsRateLimited(history: seq<int>, now: int): (c: Check)
    ensures c.limited <==> |Recent(history, now)| >= MaxRequests
    ensures c.history == Recent(history + (if c.limited then [] else [now]), now)
    ensures |history| <= MaxRequests ==> |c.history| <= MaxRequests
  {
    var recent := Recent(history, now);
    RecentAppend(history, [now], now);
    assert Recent([now], now) == [now];
    assert history + [] == history;
    if |recent| >= MaxRequests then Check(true, recent)
    else Check(false, recent + [now])
  }

  /** The history after a run of calls, and the times of the calls that were
      admitted. */
  datatype Replay = Replay(history: seq<int>, admitted: seq<int>)

  /** A run of `isRateLimited()` calls at the given times. */
  function ReplayCalls(history: seq<int>, times: seq<int>): (r: Replay)
    ensures |history| <= MaxRequests ==> |r.history| <= MaxRequests
    decreases |times|
  {
    if times == [] then Replay(history, [])
    else
      var c := IsRateLimited(history, times[0]);
      var rest := ReplayCalls(c.history, times[1..]);
      Replay(rest.history, (if c.limited then [] else [times[0]]) + rest.admitted)
  }

  /** After a run of calls at non-decreasing times, the history is exactly
      the earlier history and the admitted calls, filtered at the last time. */
  lemma {:induction false} ReplayHistory(history: seq<int>, times: seq<int>)
    requires times != []
    requires forall i, j :: 0 <= i < j < |times| ==> times[i] <= times[j]
    ensures ReplayCalls(history, times).history
      == Recent(history + ReplayCalls(history, times).admitted, times[|times| - 1])
    decreases |times|
  {
    var now := times[0];
    var last := times[|times| - 1];
    var c := IsRateLimited(history, now);
    var pushed := if c.limited then [] else [now];
    var rest := ReplayCalls(c.history, times[1..]);
    assert ReplayCalls(history, times) == Replay(rest.history, pushed + rest.admitted);
    assert c.history == Recent(history + pushed, now);
    if |times| == 1 {
      assert rest == Replay(c.history, []);
      assert pushed + [] == pushed;
    } else {
      assert now <= last;
      ReplayHistory(c.history, times[1..]);
      assert times[1..][|times[1..]| - 1] == last;
      ShiftWindow(history, pushed, rest.admitted, now, last);
    }
  }

  /** The step of `ReplayHistory`: a history filtered at `now` and then
      extended, filtered again at a later time. */
  lemma ShiftWindow(history: seq<int>, pushed: seq<int>, admitted: seq<int>, now: int, last: int)
    requires now <= last
    ensures Recent(Recent(history + pushed, now) + admitted, last) == Recent(history + (pushed + admitted), last)
  {
    RecentAppend(Recent(history + pushed, now), admitted, last);
    RecentLater(history + pushed, now, last);
    RecentAppend(history + pushed, admitted, last);
    assert history + pushed + admitted == history + (pushed + admitted);
  }

  /** The limit holds over every window: in a run of calls at non-decreasing
      times starting from a history of at most ten, at most ten of the
      admitted calls lie within the minute before the last call. */
  lemma WindowCapacity(history: seq<int>, times: seq<int>)
    requires |history| <= MaxRequests && times != []
    requires forall i, j :: 0 <= i < j < |times| ==> times[i] <= times[j]
    ensures |Recent(ReplayCalls(history, times).admitted, times[|times| - 1])| <= MaxRequests
  {
    var r := ReplayCalls(history, times);
    var last := times[|times| - 1];
    ReplayHistory(history, times);
    RecentAppend(history, r.admitted, last);
  }

  /** The module-level `requestHistory`. */
  class RequestTracker {
    var requestHistory: seq<int>

    ghost predicate Valid()
      reads this
    {
      |requestHistory| <= MaxRequests
    }

    constructor()
      ensures Valid() && requestHistory == []
    {
      requestHistory := [];
    }

    /** `isRateLimited()`: reassigns the history to its recent part, then
        refuses or records `now`. */
    method IsRateLimitedAt(now: int) returns (limited: bool)
      requires Valid()
      modifies this
      ensures Valid()
      ensures Check(limited, requestHistory) == IsRateLimited(old(requestHistory), now)
    {
      requestHistory := Recent(requestHistory, now);
      if |requestHistory| >= MaxRequests {
        return true;
      }
      requestHistory := requestHistory + [now];
      limited := false;
      RecentAppend(old(requestHistory), [now], now);
      assert Recent([now], now) == [now];
    }
  }

  /** `isValidApiKey(apiKey)`: a string key longer than ten characters;
      `None` is a missing or non-string key. */
  function IsValidApiKey(apiKey: Option<string>): (ok: bool)
    ensures ok <==> apiKey.Some? && |apiKey.value| >= 11
    ensures ok ==> apiKey.value != ""
  {
    apiKey.Some? && |apiKey.value| > 10
  }

  /** The two key rules of the extension disagree in both directions. On a
      key with no outer whitespace, `validateApiKey` of the security helpers
      accepts what this script refuses exactly for ten-character keys
      starting with `AIza`, and this script accepts what the helpers refuse
      exactly for longer keys without that prefix. */
  lemma ApiKeyRulesDiverge(k: string)
    requires k == [] || (!IsSpace(k[0]) && !IsSpace(k[|k| - 1]))
    ensures Security.ValidateApiKey(k) && !IsValidApiKey(Some(k)) <==> |k| == 10 && StartsWith(k, "AIza")
    ensures IsValidApiKey(Some(k)) && !Security.ValidateApiKey(k) <==> |k| >= 11 && !StartsWith(k, "AIza")
  {
    TrimOfTrimmed(k);
  }

  /** Two keys on which the rules differ: a ten-character Gemini-shaped key
      that only the security helpers accept, and an eleven-character key
      without the prefix that only this script accepts. */
  lemma ApiKeyRulesWitnesses(short: string, other: string)
    requires short == "AIzaSy0123" && other == "sk-01234567"
    ensures Security.ValidateApiKey(short) && !IsValidApiKey(Some(short))
    ensures IsValidApiKey(Some(other)) && !Security.ValidateApiKey(other)
  {
    ApiKeyRulesDiverge(short);
    assert short[..4] == "AIza";
    ApiKeyRulesDiverge(other);
    assert other[0] != 'A';
  }

  /** `sanitizeText(text)`: the angle brackets removed and the rest trimmed;
      a non-string (`None`) becomes the empty string. */
  function SanitizeInput(text: Option<string>): (r: string)
    ensures text.None? ==> r == ""
    ensures forall c :: c in r ==> text.Some? && c in text.value && !IsAngle(c)
    ensures r == [] || (!IsSpace(r[0]) && !IsSpace(r[|r| - 1]))
  {
    if text.None? then "" else SanitizeText(text.value)
  }

  /** The instruction of each template of the prompt map, before the blank
      line: one per known type, and `brief`'s for any other type. */
  function Instruction(summaryType: string): string
  {
    if summaryType == "detailed" then "Give a detailed and brief summary highlighting the important parts:"
    else if summaryType == "bullets" then "Summarize in 7-10 or more bullet points (start each line with numbers like\"(1) \"):"
    else "Summarize in 3-5 sentences:"
  }

  /** The prompt map: the type's instruction, a blank line, the text. */
  function PromptFor(summaryType: string, sanitizedText: string): (prompt: string)
  {
    Instruction(summaryType) + "\n\n" + sanitizedText
  }

  /** A string that ends with `tail` gives it back as its last `|tail|`
      characters. */
  lemma SuffixOfConcat(head: string, tail: string)
    ensures (head + tail)[|head + tail| - |tail|..] == tail
  {
    assert |head + tail| - |tail| == |head|;
  }

  /** Every prompt ends with the text, after a blank line. */
  lemma PromptEndsWithText(summaryType: string, sanitizedText: string)
    ensures var p := PromptFor(summaryType, sanitizedText);
      |p| >= |sanitizedText| + 2 && p[|p| - |sanitizedText| - 2..] == "\n\n" + sanitizedText
  {
    SuffixOfConcat(Instruction(summaryType), "\n\n" + sanitizedText);
  }

  /** A type without a template of its own gets the `brief` prompt. */
  lemma PromptFallback(summaryType: string, sanitizedText: string)
    requires summaryType != "brief" && summaryType != "detailed" && summaryType != "bullets"
    ensures PromptFor(summaryType, sanitizedText) == PromptFor("brief", sanitizedText)
  {
  }

  /** What the JSON body of a successful response holds, as far as the code
      reads it. */
  datatype GeminiBody =
    | Unparsed(parseError: JsError)           // `response.json()` rejects
    | ApiError(message: Option<string>)       // `data.error` is set; its message, if any
    | Candidate(text: Option<string>)         // `data.candidates?.[0]?.content?.parts?.[0]?.text`

  /** What the fetch gives: a rejection, or a response with its status. */
  datatype GeminiReply =
    | FetchFailed(error: JsError)
    | Reply(status: int, body: GeminiBody)

  /** The error thrown for a failed status. */
  function StatusError(status: int): (message: string)
  {
    if status == 401 || status == 403 then ApiKeyInvalid
    else if status == 429 then RateLimited
    else GeminiError + "HTTP " + IntToString(status)
  }

  /** The request's reply turned into the summary or the error thrown before
      normalisation: a failed status throws its error; a body with `error`
      throws the Gemini error with its message or "Unknown error"; a
      candidate whose trimmed text is shorter than 15 characters, or none,
      throws `EMPTY_SUMMARY`; otherwise the trimmed text is the summary. */
  function ReadReply(reply: GeminiReply): (r: Result<string, JsError>)
    ensures reply.Reply? && !(200 <= reply.status <= 299) ==> r == Err(Error(StatusError(reply.status)))
    ensures r.Ok? ==>
      reply.Reply? && reply.body.Candidate? && reply.body.text.Some?
      && r.value == Trim(reply.body.text.value) && |r.value| >= 15
      && !IsSpace(r.value[0]) && !IsSpace(r.value[|r.value| - 1])
    ensures reply.Reply? && 200 <= reply.status <= 299 && reply.body.Candidate? ==>
      (r.Ok? <==> reply.body.text.Some? && |Trim(reply.body.text.value)| >= 15)
  {
    match reply
    case FetchFailed(e) => Err(e)
    case Reply(status, body) =>
      if !(200 <= status <= 299) then Err(Error(StatusError(status)))
      else
        match body
        case Unparsed(e) => Err(e)
        case ApiError(message) =>
          Err(Error(GeminiError + (if message.None? || message.value == "" then "Unknown error" else message.value)))
        case Candidate(text) =>
          if text.None? || |Trim(text.value)| < 15 then Err(Error(EmptySummary))
          else
            TrimEdges(text.value);
            Ok(Trim(text.value))
  }

  /** The `catch` block: a known message is thrown again as it is; a
      `TypeError` mentioning "fetch" becomes the network error; a
      `SyntaxError` mentioning "JSON" the invalid-response error; anything
      else the unknown error with its message in parentheses. */
  function Normalize(e: JsError): (message: string)
    ensures e.message in KnownMessages ==> message == e.message
    ensures message in KnownMessages || StartsWith(message, UnknownError + " (")
    ensures e.message !in KnownMessages && e.name == PlainError ==> message == UnknownError + " (" + e.message + ")"
  {
    if e.message in KnownMessages then e.message
    else if e.name == TypeError && Contains(e.message, "fetch") then NetworkError
    else if e.name == SyntaxError && Contains(e.message, "JSON") then InvalidResponse
    else
      var m := UnknownError + " (" + e.message + ")";
      assert m[..|UnknownError + " ("|] == UnknownError + " (";
      m
  }

  /** A failed status other than 401, 403 and 429 reaches the caller
      wrapped: its Gemini error is not one of the known messages. */
  lemma StatusErrorWrapped(status: int)
    requires !(200 <= status <= 299) && status != 401 && status != 403 && status != 429
    ensures var m := GeminiError + "HTTP " + IntToString(status);
      Normalize(Error(StatusError(status))) == UnknownError + " (" + m + ")"
  {
    var m := GeminiError + "HTTP " + IntToString(status);
    assert StatusError(status) == m;
    assert m[0] == Robot[0];
    assert |m| > |GeminiError|;
    RobotPrefixedUnknown(m);
  }

  /** A message that opens with the robot but is longer than the bare
      Gemini error prefix is none of the known messages. */
  lemma RobotPrefixedUnknown(m: string)
    requires |m| > |GeminiError| && m[0] == Robot[0]
    ensures m !in KnownMessages
  {
    assert m != GeminiError;
    assert ApiKeyMissing[0] != m[0] && ApiKeyInvalid[0] != m[0] && RateLimited[0] != m[0];
    assert NetworkError[0] != m[0] && EmptySummary[0] != m[0] && UnknownError[0] != m[0];
    assert InvalidResponse[0] != m[0] && NoContent[0] != m[0];
  }

  /** How a call ended, the history it leaves and the prompt it sent, if
      any. */
  datatype Outcome = Outcome(result: Result<string, string>, history: seq<int>, sent: Option<string>)

  /** `getGeminiSummary(text, type, apiKey)` at time `now`: the sanitised
      text must have ten characters or the call fails with `NO_CONTENT`;
      then the key must be valid or it fails with `API_KEY_MISSING`; only
      then is the limiter consulted, and a refusal fails with
      `RATE_LIMITED`; otherwise the prompt is sent and the reply read, every
      error passing through the normalisation. */
  function Summarize(text: Option<string>, summaryType: string, apiKey: Option<string>,
                     history: seq<int>, now: int, reply: GeminiReply): (o: Outcome)
    ensures |SanitizeInput(text)| < 10 ==> o == Outcome(Err(NoContent), history, None)
    ensures |SanitizeInput(text)| >= 10 && !IsValidApiKey(apiKey) ==> o == Outcome(Err(ApiKeyMissing), history, None)
    ensures o.history != history ==> |SanitizeInput(text)| >= 10 && IsValidApiKey(apiKey)
    ensures o.sent.Some? <==> |SanitizeInput(text)| >= 10 && IsValidApiKey(apiKey) && !IsRateLimited(history, now).limited
    ensures o.sent.Some? ==> o.sent.value == PromptFor(summaryType, SanitizeInput(text))
    ensures o.result.Err? ==> o.result.error in KnownMessages || StartsWith(o.result.error, UnknownError + " (")
    ensures o.result.Ok? ==> o.sent.Some? && |o.result.value| >= 15 && ReadReply(reply) == Ok(o.result.value)
    ensures |SanitizeInput(text)| >= 10 && IsValidApiKey(apiKey) ==> o.history == IsRateLimited(history, now).history
    ensures |SanitizeInput(text)| >= 10 && IsValidApiKey(apiKey) && IsRateLimited(history, now).limited ==>
      o.result == Err(RateLimited)
    ensures o.sent.Some? && ReadReply(reply).Err? ==> o.result == Err(Normalize(ReadReply(reply).error))
    ensures o.sent.Some? && ReadReply(reply).Ok? ==> o.result == Ok(ReadReply(reply).value)
  {
    var sanitized := SanitizeInput(text);
    if sanitized == "" || |sanitized| < 10 then Outcome(Err(NoContent), history, None)
    else if !IsValidApiKey(apiKey) then Outcome(Err(ApiKeyMissing), history, None)
    else
      var c := IsRateLimited(history, now);
      if c.limited then Outcome(Err(RateLimited), c.history, None)
      else
        var prompt := PromptFor(summaryType, sanitized);
        match ReadReply(reply)
        case Ok(summary) => Outcome(Ok(summary), c.history, Some(prompt))
        case Err(e) => Outcome(Err(Normalize(e)), c.history, Some(prompt))
  }

  /** A failed status reaches the caller of a request that was sent as
      the code's status checks and normalisation decide: 401 and 403 give
      `API_KEY_INVALID`, 429 gives `RATE_LIMITED`, and any other status the
      unknown error wrapping "HTTP" and the status. */
  lemma SentStatusOutcome(text: Option<string>, summaryType: string, apiKey: Option<string>,
                          history: seq<int>, now: int, status: int, body: GeminiBody)
    requires !(200 <= status <= 299)
    requires Summarize(text, summaryType, apiKey, history, now, Reply(status, body)).sent.Some?
    ensures var o := Summarize(text, summaryType, apiKey, history, now, Reply(status, body));
      && (status == 401 || status == 403 ==> o.result == Err(ApiKeyInvalid))
      && (status == 429 ==> o.result == Err(RateLimited))
      && (status != 401 && status != 403 && status != 429 ==>
            o.result == Err(UnknownError + " (" + (GeminiError + "HTTP " + IntToString(status)) + ")"))
  {
    if status != 401 && status != 403 && status != 429 {
      StatusErrorWrapped(status);
    }
  }

  /** The client as the code runs it, over the module's tracker. */
  method GetGeminiSummary(tracker: RequestTracker, text: Option<string>, summaryType: string,
                          apiKey: Option<string>, now: int, reply: GeminiReply)
    returns (result: Result<string, string>, sent: Option<string>)
    requires tracker.Valid()
    modifies tracker
    ensures tracker.Valid()
    ensures Outcome(result, tracker.requestHistory, sent)
      == Summarize(text, summaryType, apiKey, old(tracker.requestHistory), now, reply)
  {
    sent := None;
    var sanitizedText := SanitizeInput(text);
    if sanitizedText == "" || |sanitizedText| < 10 {
      return Err(NoContent), sent;
    }
    if !IsValidApiKey(apiKey) {
      return Err(ApiKeyMissing), sent;
    }
    var limited := tracker.IsRateLimitedAt(now);
    if limited {
      return Err(RateLimited), sent;
    }
    var prompt := PromptFor(summaryType, sanitizedText);
    sent := Some(prompt);
    var attempt := ReadReply(reply);
    match attempt {
      case Ok(summary) =>
        result := Ok(summary);
      case Err(e) =>
        result := Err(Normalize(e));
    }
  }
}
