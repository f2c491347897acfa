/** The runtime-message handler of the TypeScript service worker
    (src/background/background.ts): it answers summarise requests by
    validating the text, reading the stored key, calling the Gemini client,
    optionally pushing the summary or the error to a tab as a tooltip, and
    replying once through `sendResponse`. */
module BackgroundTs {
  import opened Common
  import opened JsString
  import opened Storage
  import opened Messaging
  import Security
  import Api

  /** The `ERROR_MESSAGES` the handler sends. */
  const ApiKeyMissing: string := "\U{274C} API key missing. Please enter it in the options page."
  const UnknownError: string := "\U{274C} An unexpected error occurred. Please try again."
  const TextTooShort: string := "\U{26A0}\U{FE0F} Please select more text to summarize (at least 10 characters)."
  const InvalidInput: string := "\U{26A0}\U{FE0F} Invalid input provided. Please try again."

  /** The replacements chosen by the error classification. */
  const RateLimitExceeded: string := "\U{26A0}\U{FE0F} Rate limit exceeded. Please try again later."
  const ServiceUnavailable: string :=
    "\U{274C} Gemini API service is temporarily unavailable. Please try again in a few minutes."
  const KeyForbidden: string := "\U{274C} API key is invalid or has insufficient permissions."
  const BadRequest: string := "\U{274C} Invalid API key or request format."

  /** The classification of a caught error, the reply `errorMsg` ends up
      holding; never empty. */
  function Classify(e: JsError): (errorMsg: string)
    ensures errorMsg != ""
    ensures errorMsg == e.message || errorMsg in
      {UnknownError, ApiKeyMissing, RateLimitExceeded, ServiceUnavailable, KeyForbidden, BadRequest}
  {
    if e.message == "" then UnknownError
    else if Contains(e.message, "API key") then ApiKeyMissing
    else if Contains(e.message, "rate limit") then RateLimitExceeded
    else if Contains(e.message, "503") then ServiceUnavailable
    else if Contains(e.message, "403") then KeyForbidden
    else if Contains(e.message, "400") then BadRequest
    else e.message
  }

  /** The classification is a first match: the unknown error when the error
      has no message, otherwise the first of "API key", "rate limit", "503",
      "403" and "400" that the message contains picks the reply, and a
      message containing none of them is sent as it is. */
  lemma ClassifyFirstMatch(e: JsError)
    ensures e.message == "" ==> Classify(e) == UnknownError
    ensures e.message != "" && Contains(e.message, "API key") ==> Classify(e) == ApiKeyMissing
    ensures (e.message != "" && !Contains(e.message, "API key") && Contains(e.message, "rate limit")) ==>
      Classify(e) == RateLimitExceeded
    ensures (e.message != "" && !Contains(e.message, "API key") && !Contains(e.message, "rate limit")
             && Contains(e.message, "503")) ==> Classify(e) == ServiceUnavailable
    ensures (e.message != "" && !Contains(e.message, "API key") && !Contains(e.message, "rate limit")
             && !Contains(e.message, "503") && Contains(e.message, "403")) ==> Classify(e) == KeyForbidden
    ensures (e.message != "" && !Contains(e.message, "API key") && !Contains(e.message, "rate limit")
             && !Contains(e.message, "503") && !Contains(e.message, "403") && Contains(e.message, "400")) ==>
      Classify(e) == BadRequest
    ensures (e.message != "" && !Contains(e.message, "API key") && !Contains(e.message, "rate limit")
             && !Contains(e.message, "503") && !Contains(e.message, "403") && !Contains(e.message, "400")) ==>
      Classify(e) == e.message
  {
  }

  /** The `catch` block's chain of reassignments of `errorMsg`, which ends
      with the classification of the error. */
  method ClassifyError(e: JsError) returns (errorMsg: string)
    ensures errorMsg == Classify(e)
  {
    errorMsg := UnknownError;
    if e.message != "" {
      if Contains(e.message, "API key") {
        errorMsg := ApiKeyMissing;
      } else if Contains(e.message, "rate limit") {
        errorMsg := RateLimitExceeded;
      } else if Contains(e.message, "503") {
        errorMsg := ServiceUnavailable;
      } else if Contains(e.message, "403") {
        errorMsg := KeyForbidden;
      } else if Contains(e.message, "400") {
        errorMsg := BadRequest;
      } else {
        errorMsg := e.message;
      }
    }
  }

  /** The tab a summary tooltip goes to: the sender's tab when it has a
      non-zero id, otherwise the message's `tabId`. */
  function SummaryTab(senderTab: Option<int>, m: Message): (tab: Option<int>)
    ensures senderTab.Some? && senderTab.value != 0 ==> tab == senderTab
    ensures (senderTab.None? || senderTab.value == 0) ==> tab == m.tabId
  {
    if senderTab.Some? && senderTab.value != 0 then senderTab else m.tabId
  }

  /** The one response for a settled client call: the summary, or the
      classification of the error. */
  function ReplyText(result: Result<string, JsError>): string
  {
    if result.Ok? then result.value else Classify(result.error)
  }

  /** The end of a summarise request once the client has settled: on a
      summary, the tooltip to `SummaryTab` when `showTooltip` is set and
      there is such a tab, then the summary as the response; on an error,
      its classification, the tooltip to the sender's tab (never the
      message's `tabId`) when `showTooltip` is set, then the classification
      as the response. */
  method Settle(m: Message, senderTab: Option<int>, result: Result<string, JsError>)
    returns (effects: seq<Effect>)
    ensures RespondsOnce(effects)
    ensures forall k :: 0 <= k < |effects| ==> effects[k].TabMessage? || effects[k].SendResponse?
    ensures effects[|effects| - 1] == SendResponse(ReplyText(result))
    ensures result.Ok? ==>
      (|effects| == 2 <==> m.showTooltip && SummaryTab(senderTab, m).Some?)
    ensures result.Ok? && |effects| == 2 ==>
      effects[0] == TabMessage(SummaryTab(senderTab, m).value, result.value)
    ensures result.Err? ==> (|effects| == 2 <==> m.showTooltip && senderTab.Some?)
    ensures result.Err? && |effects| == 2 ==>
      effects[0] == TabMessage(senderTab.value, Classify(result.error))
    ensures |effects| <= 2
  {
    match result {
      case Ok(summary) =>
        var tabId := SummaryTab(senderTab, m);
        if m.showTooltip && tabId.Some? {
          effects := [TabMessage(tabId.value, summary), SendResponse(summary)];
        } else {
          effects := [SendResponse(summary)];
        }
      case Err(e) =>
        var errorMsg := ClassifyError(e);
        if m.showTooltip && senderTab.Some? {
          effects := [TabMessage(senderTab.value, errorMsg), SendResponse(errorMsg)];
        } else {
          effects := [SendResponse(errorMsg)];
        }
    }
  }

  /** Whether the text passes the two checks made before the key lookup:
      a non-empty string whose trimmed length is at least ten. */
  predicate CheckedText(text: Option<string>)
  {
    text.Some? && text.value != "" && |Trim(text.value)| >= 10
  }

  /** The summary a request gets from the Gemini client for `text`. */
  function ClientRun(text: string, summaryType: string, apiKey: string,
                     server: nat -> Api.FetchOutcome): Result<string, JsError>
  {
    Api.Summarize(text, summaryType, apiKey, 0, server).result
  }

  /** The `await getGeminiSummary(...)` of the asynchronous block. */
  method CallClient(text: string, summaryType: string, apiKey: string, server: nat -> Api.FetchOutcome)
    returns (result: Result<string, JsError>)
    ensures result == ClientRun(text, summaryType, apiKey, server)
  {
    var requests;
    result, requests := Api.GetGeminiSummary(text, summaryType, apiKey, 0, server);
  }

  /** The part of the asynchronous block after the checks: the client call
      on the sanitised text, then `Settle`. */
  method SummariseChecked(m: Message, senderTab: Option<int>, sanitizedText: string, apiKey: string,
                          server: nat -> Api.FetchOutcome)
    returns (effects: seq<Effect>)
    ensures RespondsOnce(effects)
    ensures effects[0] == Summarise(sanitizedText, SummaryTypeOf(m))
    ensures forall k :: 1 <= k < |effects| ==> effects[k].TabMessage? || effects[k].SendResponse?
    ensures effects[|effects| - 1] == SendResponse(ReplyText(ClientRun(sanitizedText, SummaryTypeOf(m), apiKey, server)))
  {
    var summaryType := SummaryTypeOf(m);
    var result := CallClient(sanitizedText, summaryType, apiKey, server);
    var settled := Settle(m, senderTab, result);
    RespondsOnceAppend([Summarise(sanitizedText, summaryType)], settled);
    effects := [Summarise(sanitizedText, summaryType)] + settled;
  }

  /** The asynchronous block that handles a summarise request: the text
      checks, the key check, then `SummariseChecked`. `apiKey` is the key
      `retrieveApiKeySecurely()` resolves to. */
  method HandleSummarise(m: Message, senderTab: Option<int>, apiKey: string,
                         server: nat -> Api.FetchOutcome)
    returns (effects: seq<Effect>)
    ensures RespondsOnce(effects)
    ensures (m.text.None? || m.text == Some("")) ==> effects == [SendResponse(InvalidInput)]
    ensures (m.text.Some? && m.text.value != "" && |Trim(m.text.value)| < 10) ==>
      effects == [SendResponse(TextTooShort)]
    ensures CheckedText(m.text) && apiKey == "" ==> effects == [OpenOptionsPage, SendResponse(ApiKeyMissing)]
    ensures effects[0].Summarise? <==> CheckedText(m.text) && apiKey != ""
    ensures effects[0].Summarise? ==>
      && effects[0] == Summarise(Security.SanitizeInput(m.text), SummaryTypeOf(m))
      && (forall k :: 1 <= k < |effects| ==> effects[k].TabMessage? || effects[k].SendResponse?)
    ensures effects[0].Summarise? ==>
      effects[|effects| - 1] == SendResponse(ReplyText(ClientRun(effects[0].text, SummaryTypeOf(m), apiKey, server)))
  {
    if m.text.None? || m.text.value == "" {
      return [SendResponse(InvalidInput)];
    }
    var text := m.text.value;
    if |Trim(text)| < 10 {
      return [SendResponse(TextTooShort)];
    }
    var sanitizedText := Security.SanitizeInput(Some(text));
    if apiKey == "" {
      return [OpenOptionsPage, SendResponse(ApiKeyMissing)];
    }
    effects := SummariseChecked(m, senderTab, sanitizedText, apiKey, server);
  }

  /** The `onMessage` listener. `message` is `None` when the message is
      null, so that reading its fields throws into the outer `catch`;
      `senderTab` is the sender tab's numeric id, if any; `store` holds the
      obfuscated key; `server` answers the Gemini requests. `keepOpen` is the
      listener's return value. */
  method OnMessage(message: Option<Message>, senderTab: Option<int>, store: SyncStore,
                   server: nat -> Api.FetchOutcome)
    returns (keepOpen: bool, effects: seq<Effect>)
    ensures message.None? ==> !keepOpen && effects == [SendResponse(UnknownError)]
    ensures message.Some? && !IsSummariseRequest(message.value) ==> !keepOpen && effects == []
    ensures message.Some? && IsSummariseRequest(message.value) ==> keepOpen && RespondsOnce(effects)
    ensures keepOpen && CheckedText(message.value.text) && Security.RetrieveApiKeySecurely(store) == "" ==>
      effects == [OpenOptionsPage, SendResponse(ApiKeyMissing)]
    ensures keepOpen ==>
      (effects[0].Summarise? <==> CheckedText(message.value.text) && Security.RetrieveApiKeySecurely(store) != "")
    ensures keepOpen && effects[0].Summarise? ==>
      effects[|effects| - 1] == SendResponse(ReplyText(ClientRun(effects[0].text, SummaryTypeOf(message.value),
                                                                 Security.RetrieveApiKeySecurely(store), server)))
  {
    if message.None? {
      return false, [SendResponse(UnknownError)];
    }
    if !IsSummariseRequest(message.value) {
      return false, [];
    }
    var apiKey := Security.RetrieveApiKeySecurely(store);
    effects := HandleSummarise(message.value, senderTab, apiKey, server);
    keepOpen := true;
  }
}
