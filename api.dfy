/** The Gemini client of the TypeScript extension (src/utils/api.ts): input
    validation, truncation, prompt choice, the request and its bounded 503
    retry, and the checks on the response. The network is the parameter
    `server`: `server(k)` is what the fetch made at retry count `k` gives. */
module Api {
  import opened Common
  import opened JsString

  /** `API_ERROR_MESSAGES`. */
  const ApiKeyMissing: string := "\U{274C} API key missing. Please enter it in the options page."
  const TextTooShort: string := "\U{26A0}\U{FE0F} Please select more text to summarize (at least 10 characters)."
  const InvalidInput: string := "\U{26A0}\U{FE0F} Invalid input provided. Please try again."
  const UnknownError: string := "\U{274C} An unexpected error occurred. Please try again."

  /** The errors thrown for a failed response. */
  const BadRequest: string := "\U{274C} Invalid API key or request format."
  const RateLimited: string := "\U{26A0}\U{FE0F} Rate limit exceeded. Please try again later."
  const Forbidden: string := "\U{274C} API key is invalid or has insufficient permissions."
  const Unavailable: string :=
    "\U{274C} Gemini API service is temporarily unavailable. Please try again in a few minutes or try with less text."
  const NoResponse: string := "\U{274C} No response from AI service."
  const EmptyResponse: string := "\U{274C} Empty response from AI service."

  /** The longest text sent as it is. */
  const MaxTextLength: nat := 12000

  /** `validateInput(text)`: `INVALID_INPUT` for a missing, non-string or
      empty text, `TEXT_TOO_SHORT` when the trimmed text is shorter than ten
      characters, no error otherwise. */
  function ValidateInput(text: Option<string>): (err: Option<string>)
    ensures text.None? || text == Some("") ==> err == Some(InvalidInput)
    ensures text.Some? && text.value != "" ==> (err == Some(TextTooShort) <==> |Trim(text.value)| < 10)
    ensures err.None? <==> text.Some? && |Trim(text.value)| >= 10
  {
    if text.None? || text.value == "" then Some(InvalidInput)
    else if |Trim(text.value)| < 10 then Some(TextTooShort)
    else None
  }

  /** The text cut to its first 12,000 characters followed by `...` when it
      is longer than that. */
  function Truncate(text: string): (t: string)
    ensures |text| <= MaxTextLength ==> t == text
    ensures |text| > MaxTextLength ==> |t| == MaxTextLength + 3 && t[..MaxTextLength] == text[..MaxTextLength]
  {
    if |text| > MaxTextLength then text[..MaxTextLength] + "..." else text
  }

  /** Truncating twice is truncating once: a retried request sends the same
      text. */
  lemma TruncateIdempotent(text: string)
    ensures Truncate(Truncate(text)) == Truncate(text)
  {
    if |text| > MaxTextLength {
      var t := Truncate(text);
      assert t[..MaxTextLength] + "..." == t;
    }
  }

  /** The opening of every prompt, quoting the text. */
  function BaseText(text: string): string
  {
    "Please provide a comprehensive overview of the following content: \"" + text + "\""
  }

  /** The instructions appended to the opening. */
  const BriefInstruction: string :=
    "\n\nProvide a clear and concise overview covering"
    + " the main topic, key points, and purpose of this"
    + " content in 3-4 sentences."
  const DetailedInstruction: string :=
    "\n\nProvide a comprehensive analysis covering the"
    + " main points, key insights, important details, and"
    + " overall significance."
  const BulletsInstruction: string :=
    "\n\nProvide a structured summary with clear headings"
    + " and bullet points. Use **Heading:** format for"
    + " main sections and * **Label:** Description format"
    + " for bullet points. Format it like this:\n\n**Main"
    + " Topic:**\n* **Key Point:** Description of the key"
    + " point\n* **Another Point:** Description of another"
    + " point\n\n**Important Details:**\n* **Detail 1:**"
    + " Description of detail 1\n* **Detail 2:**"
    + " Description of detail 2"
  const DefaultInstruction: string :=
    "\n\nProvide a clear and concise overview covering"
    + " the main topic and key points."

  /** Which of the four instructions a summary type selects: the three named
      types their own, any other type the default. */
  function PromptKind(summaryType: string): (kind: nat)
    ensures kind < 4
  {
    if summaryType == "brief" then 0
    else if summaryType == "detailed" then 1
    else if summaryType == "bullets" then 2
    else 3
  }

  /** The instruction of each kind. */
  function Instruction(kind: nat): string
  {
    if kind == 0 then BriefInstruction
    else if kind == 1 then DetailedInstruction
    else if kind == 2 then BulletsInstruction
    else DefaultInstruction
  }

  /** `getPromptForSummaryType(text, summaryType)`: the quoting opening
      followed by the instruction for the type. */
  function GetPromptForSummaryType(text: string, summaryType: string): (prompt: string)
    ensures StartsWith(prompt, BaseText(text))
    ensures prompt[|BaseText(text)|..] == Instruction(PromptKind(summaryType))
  {
    var p := BaseText(text) + Instruction(PromptKind(summaryType));
    assert p[..|BaseText(text)|] == BaseText(text);
    p
  }

  /** The prompt determines the text it quotes. */
  lemma PromptDeterminesText(a: string, b: string, summaryType: string)
    requires GetPromptForSummaryType(a, summaryType) == GetPromptForSummaryType(b, summaryType)
    ensures a == b
  {
    var opening := "Please provide a comprehensive overview of the following content: \"";
    var suffix := Instruction(PromptKind(summaryType));
    var pa := GetPromptForSummaryType(a, summaryType);
    assert pa == opening + a + "\"" + suffix;
    assert GetPromptForSummaryType(b, summaryType) == opening + b + "\"" + suffix;
    assert |a| == |b|;
    assert a == pa[|opening|..|opening| + |a|];
  }

  /** The four instructions differ in length, so no two coincide. */
  lemma InstructionLengths()
    ensures |BriefInstruction| == 121 && |DetailedInstruction| == 119
    ensures |BulletsInstruction| == 404 && |DefaultInstruction| == 78
  {
  }

  /** Types that select different instructions give different prompts for
      the same text. */
  lemma PromptsDistinct(text: string, t1: string, t2: string)
    requires PromptKind(t1) != PromptKind(t2)
    ensures GetPromptForSummaryType(text, t1) != GetPromptForSummaryType(text, t2)
  {
    InstructionLengths();
    var p1 := GetPromptForSummaryType(text, t1);
    var p2 := GetPromptForSummaryType(text, t2);
    assert |Instruction(PromptKind(t1))| != |Instruction(PromptKind(t2))|;
    assert |p1| != |p2|;
  }

  /** What the JSON body of a successful response holds, as far as the code
      reads it. */
  datatype ResponseBody =
    | NotJson(parseError: JsError)       // `response.json()` rejects
    | NoContent                          // no `candidates`, no first candidate, or no `content`
    | Unreadable(readError: JsError)     // `content.parts[0].text.trim()` throws
    | CandidateText(text: string)        // `content.parts[0].text`

  /** What a fetch gives: a rejection, or a response with its status. */
  datatype FetchOutcome =
    | NetworkFailure(error: JsError)
    | Response(status: int, body: ResponseBody)

  /** `response.ok`. */
  predicate IsOkStatus(status: int)
  {
    200 <= status <= 299
  }

  /** The error for a failed status other than 503: the three named
      statuses get their own messages, and any other status is quoted in a
      generic one. */
  function StatusMessage(status: int): (message: string)
    ensures status == 400 ==> message == BadRequest
    ensures status == 429 ==> message == RateLimited
    ensures status == 403 ==> message == Forbidden
    ensures status !in {400, 403, 429} ==>
      StartsWith(message, "\U{274C} API request failed (") && Contains(message, IntToString(status))
  {
    if status == 400 then BadRequest
    else if status == 429 then RateLimited
    else if status == 403 then Forbidden
    else
      var m := "\U{274C} API request failed (" + IntToString(status) + "). Please try again.";
      assert m[..|"\U{274C} API request failed ("|] == "\U{274C} API request failed (";
      ContainsInfix("\U{274C} API request failed (", IntToString(status), "). Please try again.");
      m
  }

  /** How a call ended and the texts its requests quoted, one per request, in
      order; the request for text `t` carries the prompt
      `GetPromptForSummaryType(t, summaryType)`. */
  datatype Run = Run(result: Result<string, JsError>, requests: seq<string>)

  /** What one response leads to: a final result, or the 503 retry. */
  datatype Answer = Done(result: Result<string, JsError>) | RetryLater

  /** The reading of a successful response: its candidate text trimmed, or
      an error when there is no candidate content or its text is empty. */
  function ReadBody(body: ResponseBody): (r: Result<string, JsError>)
    ensures body.NoContent? ==> r == Err(Error(NoResponse))
    ensures body.CandidateText? ==> (r.Ok? <==> Trim(body.text) != "")
    ensures r.Ok? ==>
      body.CandidateText? && r.value == Trim(body.text)
      && r.value != "" && !IsSpace(r.value[0]) && !IsSpace(r.value[|r.value| - 1])
  {
    match body
    case NotJson(e) => Err(e)
    case NoContent => Err(Error(NoResponse))
    case Unreadable(e) => Err(e)
    case CandidateText(candidate) =>
      var summary := Trim(candidate);
      TrimEdges(candidate);
      if summary == "" then Err(Error(EmptyResponse)) else Ok(summary)
  }

  /** The handling of one fetch outcome at retry count `retryCount`: a
      rejection is passed on; a failed status throws its message, except a
      503 while `retryCount < 2`, which is retried; a successful response is
      read by `ReadBody`. */
  function Respond(response: FetchOutcome, retryCount: nat): (a: Answer)
    ensures a.RetryLater? <==> response.Response? && response.status == 503 && retryCount < 2
    ensures response.Response? && !IsOkStatus(response.status) && response.status != 503 ==>
      a == Done(Err(Error(StatusMessage(response.status))))
    ensures response.Response? && response.status == 503 && retryCount >= 2 ==>
      a == Done(Err(Error(Unavailable)))
    ensures a.Done? && a.result.Ok? ==>
      response.Response? && IsOkStatus(response.status) && a.result == ReadBody(response.body)
  {
    match response
    case NetworkFailure(e) => Done(Err(e))
    case Response(status, body) =>
      if !IsOkStatus(status) then
        if status == 503 && retryCount < 2 then RetryLater
        else if status == 503 then Done(Err(Error(Unavailable)))
        else Done(Err(Error(StatusMessage(status))))
      else Done(ReadBody(body))
  }

  /** The number of calls still allowed to retry from `retryCount`. */
  function RetriesLeft(retryCount: nat): nat
  {
    if retryCount < 2 then 2 - retryCount else 0
  }

  /** `getGeminiSummary(text, summaryType, apiKey, retryCount)`: an empty key
      throws `API_KEY_MISSING` and an invalid text its validation error, both
      before any request; otherwise the text is truncated, the prompt chosen,
      50 ms waited and the request sent, and its outcome handled by
      `Respond`; a retry waits 2000 ms and calls again with the truncated
      text and the next retry count. */
  function Summarize(text: string, summaryType: string, apiKey: string, retryCount: nat,
                     server: nat -> FetchOutcome): (run: Run)
    ensures apiKey == "" ==> run == Run(Err(Error(ApiKeyMissing)), [])
    ensures apiKey != "" && ValidateInput(Some(text)).Some? ==>
      run == Run(Err(Error(ValidateInput(Some(text)).value)), [])
    ensures apiKey != "" && ValidateInput(Some(text)).None? ==>
      1 <= |run.requests| <= RetriesLeft(retryCount) + 1
    ensures forall k :: 0 <= k < |run.requests| ==> run.requests[k] == Truncate(text)
    decreases RetriesLeft(retryCount)
  {
    if apiKey == "" then Run(Err(Error(ApiKeyMissing)), [])
    else if ValidateInput(Some(text)).Some? then Run(Err(Error(ValidateInput(Some(text)).value)), [])
    else
      var sent := Truncate(text);
      match Respond(server(retryCount), retryCount)
      case Done(result) => Run(result, [sent])
      case RetryLater =>
        var rest := Summarize(sent, summaryType, apiKey, retryCount + 1, server);
        TruncateIdempotent(text);
        Run(rest.result, [sent] + rest.requests)
  }

  /** A summary is returned only when a response carried a candidate text,
      and it is that text trimmed: never empty, no white space at either
      end. */
  lemma {:induction false} SummaryTrimmed(text: string, summaryType: string, apiKey: string, retryCount: nat,
                                          server: nat -> FetchOutcome)
    ensures var r := Summarize(text, summaryType, apiKey, retryCount, server).result;
      r.Ok? ==> r.value != "" && !IsSpace(r.value[0]) && !IsSpace(r.value[|r.value| - 1])
    decreases RetriesLeft(retryCount)
  {
    var r := Summarize(text, summaryType, apiKey, retryCount, server).result;
    if apiKey != "" && ValidateInput(Some(text)).None? {
      match Respond(server(retryCount), retryCount)
      case RetryLater =>
        SummaryTrimmed(Truncate(text), summaryType, apiKey, retryCount + 1, server);
      case Done(result) =>
        assert r == result;
    }
  }

  /** A failed status other than 503 is not retried: one request, and the
      error for that status. */
  lemma StatusNotRetried(text: string, summaryType: string, apiKey: string, retryCount: nat,
                         server: nat -> FetchOutcome)
    requires apiKey != "" && ValidateInput(Some(text)).None?
    requires server(retryCount).Response? && !IsOkStatus(server(retryCount).status) && server(retryCount).status != 503
    ensures Summarize(text, summaryType, apiKey, retryCount, server)
      == Run(Err(Error(StatusMessage(server(retryCount).status))), [Truncate(text)])
  {
  }

  /** Three 503 answers in a row exhaust the retries: three requests, then
      the service-unavailable error. */
  lemma UnavailableAfterThreeFetches(text: string, summaryType: string, apiKey: string,
                                     server: nat -> FetchOutcome)
    requires apiKey != "" && ValidateInput(Some(text)).None? && ValidateInput(Some(Truncate(text))).None?
    requires forall k :: k <= 2 ==> server(k).Response? && server(k).status == 503
    ensures Summarize(text, summaryType, apiKey, 0, server).result == Err(Error(Unavailable))
    ensures Summarize(text, summaryType, apiKey, 0, server).requests == [Truncate(text), Truncate(text), Truncate(text)]
  {
    var sent := Truncate(text);
    TruncateIdempotent(text);
    assert server(0).status == 503 && server(1).status == 503 && server(2).status == 503;
    var r2 := Summarize(sent, summaryType, apiKey, 2, server);
    var r1 := Summarize(sent, summaryType, apiKey, 1, server);
    assert r2 == Run(Err(Error(Unavailable)), [sent]);
    assert r1 == Run(Err(Error(Unavailable)), [sent, sent]);
  }

  /** The retry validates again the text it was given, which is the
      truncated one: when truncation leaves fewer than ten characters that
      are not white space, a 503 ends with the too-short error after a
      single request. */
  lemma RetryRevalidates(text: string, summaryType: string, apiKey: string,
                         server: nat -> FetchOutcome)
    requires apiKey != "" && ValidateInput(Some(text)).None?
    requires |Trim(Truncate(text))| < 10
    requires server(0).Response? && server(0).status == 503
    ensures Summarize(text, summaryType, apiKey, 0, server)
      == Run(Err(Error(TextTooShort)), [Truncate(text)])
  {
    assert |text| > MaxTextLength;
    assert Truncate(text) != "";
  }

  /** The client as the code runs it: the same steps, with the retry made
      by a recursive call. */
  method GetGeminiSummary(text: string, summaryType: string, apiKey: string, retryCount: nat,
                          server: nat -> FetchOutcome)
    returns (result: Result<string, JsError>, requests: seq<string>)
    ensures Run(result, requests) == Summarize(text, summaryType, apiKey, retryCount, server)
    decreases RetriesLeft(retryCount)
  {
    if apiKey == "" {
      return Err(Error(ApiKeyMissing)), [];
    }
    var validationError := ValidateInput(Some(text));
    if validationError.Some? {
      return Err(Error(validationError.value)), [];
    }
    var sent := text;
    if |sent| > MaxTextLength {
      sent := sent[..MaxTextLength] + "...";
    }
    assert sent == Truncate(text);
    requests := [sent];
    var response := server(retryCount);
    match response {
      case NetworkFailure(e) =>
        result := Err(e);
      case Response(status, body) =>
        if !IsOkStatus(status) {
          if status == 503 {
            if retryCount < 2 {
              var retried, rest := GetGeminiSummary(sent, summaryType, apiKey, retryCount + 1, server);
              result := retried;
              requests := requests + rest;
            } else {
              result := Err(Error(Unavailable));
            }
          } else {
            result := Err(Error(StatusMessage(status)));
          }
        } else {
          result := ReadBody(body);
        }
    }
  }
}
