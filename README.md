# SmartDigest in Dafny

SmartDigest is a Chrome extension that summarises web pages and selected
text with Google's Gemini model, reads summaries aloud, and keeps its
settings in `chrome.storage.sync`. This project models the logic of the
extension: the parts that decide, validate, count and change state. The
browser, the network, the speech engine and the page stay abstract.

The model has one Dafny module per source file, plus four shared modules
for the platform the code relies on:

- `common.dfy` (`Common`): `Option`, `Result` and the JavaScript error
  value (`name`, `message`).
- `js_string.dfy` (`JsString`): `String.prototype.trim` with the
  ECMAScript whitespace set, the `<>` strip, `split`/`join`, `includes`,
  and decimal printing of integers.
- `base64.dfy` (`Base64`): `btoa` as Base64 in section 4 of RFC 4648, and
  `atob` as the forgiving decoder of the HTML standard, over Latin-1 byte
  strings.
- `storage.dfy` (`Storage`): `chrome.storage.sync` as a class over a map
  that either works or rejects every call with a fixed error.

The modules for the source files fall into seven parts:

1. Rate limiting and retry. `rate_limiter.dfy` covers
   `src/utils/rateLimiter.ts`: the fixed-window `RateLimiter` class over a
   map of records, `withRateLimit`, and the `ExponentialBackoff.execute`
   loop. That loop is proved against a recursive specification, `Run`. The
   sliding-window `isRateLimited` of `src/summarizer.js` is a class over
   its timestamp history, in `summarizer.dfy`.
2. The summarisation clients. `api.dfy` covers `src/utils/api.ts` and
   `summarizer.dfy` covers `src/summarizer.js`:
   - validation and the order of the checks;
   - truncation;
   - prompt choice;
   - the status mapping;
   - the bounded 503 retry;
   - response reading;
   - error normalisation.

   `fetch` is a function from the request number to an outcome.
3. The security helpers. `security.dfy` covers `src/utils/security.ts`:
   key validation and masking, the salted Base64 obfuscation and its round
   trip, storing and retrieving the key, input sanitising, text
   validation, the CSP check and rate-limit identifiers.
4. The background routers. `messaging.dfy`, `background_ts.dfy` and
   `background_js.dfy` cover `src/background/background.ts` and
   `background.js`. Each handler returns the trace of its effects:
   responses, tooltip pushes and opening the options page. The model
   proves that every handled message is answered exactly once, last.
5. Text extraction and placement. `page.dfy` holds what `src/content/content.ts`
   and `src/content.js` share: article-text extraction over an abstract
   document, `ensureInViewport`, the listener and the button click, with
   the two page globals as an `Overlay` class. `content_ts.dfy`,
   `content_js.dfy` and `content_legacy.dfy` add each script's own
   selection handler. The last also covers the unsanitised first script,
   `content.js`.
6. Speech. `tts.dfy` covers `src/utils/tts.ts`: voice choice and settings
   load/save. The speech machines are classes whose `calls` field records
   what they ask of the speech engine:
   - `popup_tsx.dfy`: `src/pages/popup/Popup.tsx`, including the one-shot
     settlement of the summary request;
   - `text_to_speech.dfy`: `text-to-speech.js`;
   - `popup_js.dfy`: `popup.js`.

   Engine callbacks such as `onend` are methods.
7. The options pages. `options_common.dfy` holds the feedback rules, the
   email pattern and the counter colour. `options_tsx.dfy` covers
   `src/pages/options/Options.tsx` as a class over its React state.
   `options_js.dfy` covers `options.js`, with the FAQ and accordion lists
   as an array that each click updates in place.

Where versions of the same logic differ, each is modelled as written:
- 12,000 against 50,000 characters;
- `length > 10` against `startsWith("AIza")` (see `Summarizer.ApiKeyRulesDiverge`);
- the paragraph branch that returns `""`;
- trimmed against untrimmed feedback.

Three behaviours of the code are worth stating up front:
- `ensureInViewport` (src/content/content.ts:49-56) always leaves the
  element's right edge ten pixels inside the viewport. It only guarantees
  the ten-pixel left margin when the element is at most the viewport width
  minus twenty. `Page.EnsureInViewport` states this.
- The background's error classification (src/background/background.ts:137-156)
  replies with `BackgroundTs.Classify` of the error. Applied to the
  messages `src/utils/api.ts` produces, by reading the strings:
  - the 400 and 403 messages contain "API key", so both become
    `API_KEY_MISSING`;
  - "Rate limit exceeded" does not contain "rate limit", so it passes
    through as it is;
  - the 503 message does not contain "503".
  These per-message outcomes are not proved in the model (see
  "## Left out").
- `sanitizeInput` (src/utils/security.ts:139-150) removes `javascript:`
  and `data:` in a single pass each, which does not rescan its output.
  `Security.SanitizeNestedScheme` shows "javajavascript:script:" coming
  out as "javascript:".

## Model

| member | source | states |
|---|---|---|
| RateLimiting.Admit | src/utils/rateLimiter.ts:31-53 | an unseen identifier or a window older than `windowMs` (strictly) starts a new record `{now, 1}` and passes; inside the window the request passes iff `count < maxRequests`, a pass adds exactly one to the count and a refusal keeps the record; with `maxRequests >= 1` the count never exceeds it |
| RateLimiting.TimeUntilReset | src/utils/rateLimiter.ts:56-62 | 0 without a record; otherwise `max(0, windowMs - elapsed)`: never negative, at most `windowMs`, and zero only once the window has lasted `windowMs` |
| RateLimiting.RemainingRequests | src/utils/rateLimiter.ts:65-75 | `maxRequests` without a record or after the window; otherwise `max(0, maxRequests - count)`; always within `[0, maxRequests]` |
| RateLimiting.AdmitIffRemaining | src/utils/rateLimiter.ts:31-53 | a request is admitted exactly when the remaining allowance is positive |
| RateLimiting.ResetBoundary | src/utils/rateLimiter.ts:41-44 | at exactly `windowMs` after the window start, the time until reset is already 0 while a full window still refuses (strict `>` in `isAllowed`) |
| RateLimiting.WindowBound | src/utils/rateLimiter.ts:46-52 | over any run of calls inside one window, the passes never exceed the room left, and the count grows by exactly the passes |
| RateLimiting.FirstWindowBound | src/utils/rateLimiter.ts:31-52 | starting from no record, calls all within `windowMs` of the first pass at most `maxRequests` times |
| RateLimiting.RateLimiter.constructor | src/utils/rateLimiter.ts:23-28 | a limiter starts with the given configuration and no records |
| RateLimiting.RateLimiter.Lookup | src/utils/rateLimiter.ts:33 | `requests.get(identifier)`: some record exactly when the identifier is present |
| RateLimiting.RateLimiter.IsAllowed | src/utils/rateLimiter.ts:31-53 | returns the admission decision and replaces only this identifier's record by the admitted one; every other record is unchanged; counts stay within the allowance |
| RateLimiting.RateLimiter.GetTimeUntilReset | src/utils/rateLimiter.ts:56-62 | never negative; 0 for an unknown identifier |
| RateLimiting.RateLimiter.GetRemainingRequests | src/utils/rateLimiter.ts:65-75 | within `[0, maxRequests]`; the full allowance for an unknown identifier |
| RateLimiting.RateLimiter.Clear | src/utils/rateLimiter.ts:78-80 | no record is left |
| RateLimiting.RateLimiter.GetRateLimitInfo | src/utils/rateLimiter.ts:83-97 | reports the remaining allowance and reset time as they were before, then consumes a slot exactly as `isAllowed` does; `isLimited` is the negated admission |
| RateLimiting.CeilSeconds | src/utils/rateLimiter.ts:114 | the least whole number of seconds covering the milliseconds |
| RateLimiting.WithRateLimit | src/utils/rateLimiter.ts:104-120 | the wrapped function runs iff the limiter admits the id (`identifier` or "default"), and its outcome is returned; otherwise the "Rate limit exceeded" error with the rounded-up wait; the limiter's records change as one `isAllowed` call |
| RateLimiting.ExponentialBackoff.constructor | src/utils/rateLimiter.ts:128-136 | keeps the base delay, delay cap and attempt count |
| RateLimiting.ExponentialBackoff.Delay | src/utils/rateLimiter.ts:160-163 | the wait is the cap or `baseDelay * 2^(attempt-1)`, and never above the cap |
| RateLimiting.ExponentialBackoff.DelayMonotone | src/utils/rateLimiter.ts:160-163 | with a non-negative base the wait never shrinks from one retry to the next |
| RateLimiting.ExponentialBackoff.RunFacts | src/utils/rateLimiter.ts:144-173 | from attempt `k`: between 1 and `maxAttempts - k + 1` calls; every call but the last failed with a retryable error and was announced as `onRetry(k + j, Delay(k + j))`; the result is the last call's value or its error; no attempt at all when `maxAttempts` is below `k` |
| RateLimiting.ExponentialBackoff.FatalNotRetried | src/utils/rateLimiter.ts:150-154 | an error mentioning "Invalid API key" or "insufficient permissions" at call `k` means no call after `k` |
| RateLimiting.ExponentialBackoff.Execute | src/utils/rateLimiter.ts:138-174 | the `for` loop returns exactly the outcome, call count and retry announcements of `Run(operation, 1)`, whose properties `RunFacts` states |
| Security.ValidateApiKey | src/utils/security.ts:9-31 | valid iff the trimmed key has at least 10 characters and starts with "AIza" (empty and blank keys fail) |
| Security.ValidateApiKeyBlank | src/utils/security.ts:17-21 | a whitespace-only key is never valid |
| Security.ValidateApiKeyPadded | src/utils/security.ts:17-26 | whitespace around a key does not change its validity |
| Security.SanitizeApiKey | src/utils/security.ts:34-42 | "INVALID" below 8 characters; otherwise 11 characters: the first four, "...", the last four |
| Security.SanitizeApiKeyHidesMiddle | src/utils/security.ts:39-41 | keys that agree on their first and last four characters are masked alike |
| Security.SaltedLatin1 | src/utils/security.ts:50-51 | the salted key is Latin-1 (acceptable to `btoa`) exactly when the key is |
| Security.EncryptApiKey | src/utils/security.ts:45-57 | the empty string exactly for an empty key or one `btoa` rejects (a character above U+00FF) |
| Security.DecryptApiKey | src/utils/security.ts:60-75 | "" for empty input; a non-empty result is what follows the salt in the `atob` decoding |
| Security.EncryptDecryptRoundTrip | src/utils/security.ts:45-75 | every non-empty Latin-1 key decrypts back from its encryption |
| Security.RetrieveFrom | src/utils/security.ts:99-109 | no stored key gives "" |
| Security.RetrieveAfterStore | src/utils/security.ts:85-109 | after the two items are written, the key reads back as given (non-blank, Latin-1) |
| Security.StoreApiKeySecurely | src/utils/security.ts:78-96 | a blank key fails with "API key is required" and writes nothing; a storage rejection is passed on and writes nothing; otherwise exactly `geminiApiKey` (encrypted) and `apiKeyLastUpdated` are written, and a later retrieve returns the key, so `hasValidApiKey` then agrees with `validateApiKey` of the key |
| Security.RetrieveApiKeySecurely | src/utils/security.ts:99-114 | "" when the storage read fails |
| Security.ClearApiKey | src/utils/security.ts:117-125 | removes the two items, after which retrieval gives "" and `hasValidApiKey` is false; a storage rejection is passed on and nothing changes |
| Security.HasValidApiKey | src/utils/security.ts:128-136 | true iff the retrieved key, trimmed, has at least ten characters and starts with `AIza`; false when the read is rejected |
| Security.ValidKeyStoredThenCleared | src/utils/security.ts:78-136 | a valid Latin-1 key, once stored, is retrieved as a valid key; once the two items are removed, the retrieved key is not valid |
| Security.RemoveAllIgnoringCase | src/utils/security.ts:147-148 | one pass of `replace(/pat/gi, "")`: never longer, and adds no character (that a match is removed is `MatchRemoved`) |
| Security.RemoveAbsent | src/utils/security.ts:147-148 | text lacking a character of the pattern is left as it is |
| Security.MatchRemoved | src/utils/security.ts:147-148 | a text holding the pattern (in any letter case) at some position comes out shorter by at least the pattern's length |
| Security.RemoveAfterSkipped | src/utils/security.ts:147-148 | a prefix at none of whose positions a match starts is kept, and the pass continues after it |
| Security.NestedPatternSurvives | src/utils/security.ts:147 | the single pass does not rescan its output: "javajavascript:script:" comes out as "javascript:" |
| Security.SanitizeInput | src/utils/security.ts:139-150 | the result has no '<' or '>', no whitespace at either end, and only characters of the input; a non-string gives "" |
| Security.SanitizeInputPlainText | src/utils/security.ts:145-149 | trimmed text without angle brackets or colons passes unchanged |
| Security.SanitizeRemovesScheme | src/utils/security.ts:145-149 | a `javascript:` (any letter case) left after the angle brackets are stripped is removed: the result is shorter by at least eleven characters |
| Security.SanitizeNestedScheme | src/utils/security.ts:139-150 | `sanitizeInput("javajavascript:script:")` is "javascript:": a scheme nested in itself gets through |
| Security.ValidateSummarizationText | src/utils/security.ts:153-188 | a missing or empty text is "Invalid input provided"; otherwise the sanitised text is returned, valid iff its length is within `[10, 50000]`, with the "at least 10" and "too long" errors below and above |
| Security.ValidTextIsClean | src/utils/security.ts:166-187 | a valid text is 10 to 50,000 characters, trimmed and free of angle brackets |
| Security.TrimEach | src/utils/security.ts:200 | every part trimmed, in place |
| Security.CheckDirectives | src/utils/security.ts:202-209 | the loop accepts iff every directive's first space-separated token is empty or an allowed name |
| Security.ValidateCsp | src/utils/security.ts:191-210 | true iff every `;`-separated trimmed directive is accepted |
| Security.GenerateRateLimitId | src/utils/security.ts:226-229 | starts with the user id and "_", or with "anonymous_" when there is none |
| Security.RateLimitIdWindow | src/utils/security.ts:226-229 | two identifiers for the same user agree exactly when their times fall in the same one-minute window |
| Api.ValidateInput | src/utils/api.ts:23-33 | `INVALID_INPUT` for a missing or empty text; otherwise `TEXT_TOO_SHORT` iff the trimmed text has fewer than 10 characters; no error iff the text is present with at least 10 trimmed characters |
| Api.Truncate | src/utils/api.ts:59-66 | text of at most 12,000 characters is unchanged; longer text becomes 12,003 characters whose first 12,000 are the original's |
| Api.TruncateIdempotent | src/utils/api.ts:61-124 | truncating the truncated text changes nothing, so the 503 retry sends the same text |
| Api.PromptKind | src/utils/api.ts:215-223 | every summary type selects one of the four instructions |
| Api.GetPromptForSummaryType | src/utils/api.ts:212-225 | every prompt starts with the base text quoting the input and continues with exactly the instruction of the type ("brief", "detailed", "bullets", or the default for any other) |
| Api.PromptDeterminesText | src/utils/api.ts:213 | equal prompts for one type quote equal texts |
| Api.InstructionLengths | src/utils/api.ts:217-223 | the four instructions have 121, 119, 404 and 78 characters |
| Api.PromptsDistinct | src/utils/api.ts:215-223 | types that select different instructions yield different prompts for the same text |
| Api.StatusMessage | src/utils/api.ts:107-133 | 400, 429 and 403 each get their own message; any other failed non-503 status gets "API request failed (…)", which quotes the status |
| Api.ReadBody | src/utils/api.ts:136-157 | no candidate content gives "No response from AI service."; a candidate succeeds iff its trimmed text is non-empty, and the summary is that trimmed text |
| Api.Respond | src/utils/api.ts:103-157 | a 503 is retried iff `retryCount < 2`, and becomes the "temporarily unavailable" error after that; any other failed status is its message, with no retry; success only from an OK response read by `ReadBody` |
| Api.Summarize | src/utils/api.ts:36-162 | a missing key, then a validation error, fail before any request; otherwise 1 to `3 - retryCount` requests are sent, each quoting the truncated text |
| Api.SummaryTrimmed | src/utils/api.ts:147-157 | a returned summary is non-empty and has no whitespace at either end |
| Api.StatusNotRetried | src/utils/api.ts:107-133 | a failed status other than 503 gives one request and that status's error |
| Api.UnavailableAfterThreeFetches | src/utils/api.ts:115-128 | three 503 answers give exactly three requests of the same text and then the "temporarily unavailable" error |
| Api.RetryRevalidates | src/utils/api.ts:54-124 | the retry re-validates the truncated text: when it has fewer than 10 non-blank characters, a 503 ends in `TEXT_TOO_SHORT` after one request |
| Api.GetGeminiSummary | src/utils/api.ts:36-162 | the recursive client returns exactly the result and requests of `Summarize` |
| Summarizer.Recent | src/summarizer.js:31-33 | the filter keeps exactly the timestamps younger than 60,000 ms, in order, and never lengthens the history |
| Summarizer.RecentAppend | src/summarizer.js:31-33 | filtering a concatenation is concatenating the filtered parts |
| Summarizer.RecentLater | src/summarizer.js:31-33 | filtering again at a later time equals filtering once at that time |
| Summarizer.IsRateLimited | src/summarizer.js:28-41 | refuses iff 10 or more timestamps remain in the window; the new history is the filtered history, plus `now` only when admitted; a history of at most 10 stays at most 10 |
| Summarizer.ReplayCalls | src/summarizer.js:28-41 | over a run of calls the history never exceeds 10 entries |
| Summarizer.ReplayHistory | src/summarizer.js:28-41 | after calls at non-decreasing times, the history is the old history plus the admitted calls, filtered at the last time |
| Summarizer.ShiftWindow | src/summarizer.js:31-39 | filtering at an earlier time and then appending and filtering at a later time is filtering the whole at the later time |
| Summarizer.WindowCapacity | src/summarizer.js:28-41 | at most 10 admitted calls ever lie within the minute before the last call |
| Summarizer.RequestTracker.constructor | src/summarizer.js:25 | the history starts empty |
| Summarizer.RequestTracker.IsRateLimitedAt | src/summarizer.js:28-41 | the reassignment and push leave exactly the decision and the history of `IsRateLimited`, keeping the history at most 10 long |
| Summarizer.IsValidApiKey | src/summarizer.js:44-46 | a key is accepted iff it is a string of at least eleven characters |
| Summarizer.ApiKeyRulesDiverge | src/summarizer.js:44-46 | on keys without outer whitespace, `validateApiKey` of src/utils/security.ts alone accepts exactly the ten-character `AIza` keys, and this rule alone accepts exactly the longer keys without that prefix |
| Summarizer.ApiKeyRulesWitnesses | src/summarizer.js:44-46 | "AIzaSy0123" passes only `validateApiKey`; "sk-01234567" passes only this rule |
| Summarizer.SanitizeInput | src/summarizer.js:49-52 | a non-string gives ""; the result has only characters of the input, no '<' or '>', and no whitespace at either end |
| Summarizer.PromptEndsWithText | src/summarizer.js:86-91 | every prompt ends with a blank line and then the sanitised text |
| Summarizer.PromptFallback | src/summarizer.js:91 | any type other than "brief", "detailed" and "bullets" gets the "brief" prompt |
| Summarizer.ReadReply | src/summarizer.js:109-146 | a failed status throws its error (401/403 invalid key, 429 rate limited, otherwise "Gemini API error: HTTP status"); a summary is returned only from an OK reply with a candidate whose trimmed text has at least 15 characters, and is that trimmed text |
| Summarizer.Normalize | src/summarizer.js:147-170 | a known message is rethrown unchanged; the result is always known or "An unexpected error occurred. (…)"; a plain unknown error is wrapped with its message |
| Summarizer.StatusErrorWrapped | src/summarizer.js:116-169 | the "Gemini API error: HTTP status" error is not a known message, so it reaches the caller wrapped in the unknown error |
| Summarizer.RobotPrefixedUnknown | src/summarizer.js:2-16 | a message that starts with the robot emoji of `GEMINI_ERROR` and is longer than that prefix is none of the known messages |
| Summarizer.Summarize | src/summarizer.js:54-171 | short or empty sanitised text fails with `NO_CONTENT`, then an invalid key with `API_KEY_MISSING`, both leaving the history unchanged; once both pass the history is what the limiter leaves, and a refusal fails with `RATE_LIMITED`; the prompt is sent iff all checks and the limiter pass, and it is the prompt for the type; after sending, a reply error becomes `Normalize` of it and a read summary is the result, with at least 15 characters |
| Summarizer.SentStatusOutcome | src/summarizer.js:116-169 | for a sent request, a 401 or 403 reply gives `API_KEY_INVALID`, 429 gives `RATE_LIMITED`, and any other failed status the unknown error wrapping "Gemini API error: HTTP" and the status |
| Summarizer.GetGeminiSummary | src/summarizer.js:54-171 | the method over the tracker gives exactly the result, history and prompt of `Summarize` |
| Messaging.SummaryTypeOf | src/background/background.ts:73 | the message's summary type when given, otherwise "brief" |
| Messaging.RespondsOnceAfter | src/background/background.ts:78-187 | effects without a response followed by one response answer exactly once |
| Messaging.RespondsOnceAppend | src/background/background.ts:102-179 | effects without a response followed by a once-answering tail answer exactly once |
| Messaging.RespondsOnceCount | src/background/background.ts:78-187 | answering once means exactly one `sendResponse` call, made last |
| Messaging.EndsWithResponse | src/background/background.ts:78-187 | effects that end with a response contain at least one |
| BackgroundTs.Classify | src/background/background.ts:137-156 | the reply the catch block settles on: never empty, and either the error's own message or one of the six replacement messages |
| BackgroundTs.ClassifyFirstMatch | src/background/background.ts:137-156 | no message gives `UNKNOWN_ERROR`; otherwise the first of "API key", "rate limit", "503", "403", "400" contained picks its reply, and a message with none of them is sent as it is |
| BackgroundTs.ClassifyError | src/background/background.ts:137-156 | the chain of reassignments of `errorMsg` ends with `Classify` of the error |
| BackgroundTs.SummaryTab | src/background/background.ts:112-113 | the sender tab's id when it is non-zero, otherwise the message's `tabId` |
| BackgroundTs.Settle | src/background/background.ts:102-179 | exactly one response, last, and it is the summary or `Classify` of the error; on success a tooltip to `SummaryTab` iff `showTooltip` and such a tab; on error a tooltip with the classified message only to the sender's tab (never `message.tabId`) |
| BackgroundTs.CallClient | src/background/background.ts:102-106 | the awaited client call yields the result of `Api.Summarize` with retry count 0 |
| BackgroundTs.SummariseChecked | src/background/background.ts:102-180 | the summariser is called first with the sanitised text and the type, then exactly one response follows: the summary, or the classification of the client's error |
| BackgroundTs.HandleSummarise | src/background/background.ts:71-181 | a missing or empty text answers `INVALID_INPUT`, a trimmed length below 10 `TEXT_TOO_SHORT`, both before the key; a missing key opens the options page and answers `API_KEY_MISSING`; the summariser runs iff both checks pass and a key exists, on the sanitised text; always exactly one response; when the summariser runs, the response is its summary or the classification of its error |
| BackgroundTs.OnMessage | src/background/background.ts:59-189 | a null message answers `UNKNOWN_ERROR` from the outer catch; other messages than the two summarise requests get no response and no `true`; a summarise request returns `true` and is answered exactly once; the key is the one `retrieveApiKeySecurely` gives; when the summariser runs, the response is its summary or the classification of its error |
| BackgroundJs.KeyText | background.js:40-55 | the stored value reaches the summariser as a key only when it is a string, and then unchanged |
| BackgroundJs.SummaryTab | background.js:58 | `sender.tab?.id ?? message.tabId`: the sender's tab whenever there is one (id 0 included), otherwise the message's |
| BackgroundJs.Settle | background.js:55-80 | exactly one response, last: the summary, or "Gemini Error: " and the message; a summary tooltip iff `showTooltip` and a tab is defined; an error tooltip iff `showTooltip` and the sender tab's id is non-zero; the tooltip carries the response |
| BackgroundJs.SummariseWithKey | background.js:53-80 | with a truthy key the summariser runs on the unvalidated text and its history changes as `getGeminiSummary` does; its summary or "Gemini Error: " and its message is the one response, and the options page is not opened |
| BackgroundJs.HandleSummarise | background.js:36-81 | a failed key lookup answers "Gemini Error: …" without summarising; a falsy key opens options and answers the missing-key message; otherwise the text goes unvalidated to the summariser, whose limiter history changes as `getGeminiSummary` does, and its summary or prefixed error is the one response |
| BackgroundJs.OnMessage | background.js:29-85 | returns `true` iff the message is a summarise request, which is then answered exactly once; any other message gets no response and leaves the limiter alone |
| Page.SanitizeAll | src/content/content.ts:66-70 | each paragraph's text is sanitised, one result per paragraph, in document order |
| Page.ParagraphTextClean | src/content/content.ts:66-72 | the newline-joined sanitised paragraphs contain no `<` or `>` |
| Page.ArticleText | src/content/content.ts:61-82 | the article's sanitised text first; else the joined paragraphs, but the empty string when they are ten characters or fewer; else `main`; else the body only when longer than ten characters; never an angle bracket in the result |
| Page.ParagraphsShadowMain | src/content.js:58-77 | once there are paragraphs and no article, changing `main` or the body does not change the extracted text |
| Page.EnsureInViewport | src/content/content.ts:26-59 | the right edge always stays ten pixels inside the viewport, the left edge only when the element fits between both margins; an in-range left is kept; the top is 50 above the selection, below it, or lifted above by the element's height, and 50 above whenever that fits |
| Page.EnsureInViewportStable | src/content.js:26-53 | re-placing an element at the left edge it was given keeps that left edge |
| Page.Overlay.constructor | src/content/content.ts:1-2 | no button and no tooltip on the page at first |
| Page.Overlay.ShowButton | src/content/content.ts:120-221 | the button now carries the given position and selection; the tooltip is untouched |
| Page.Overlay.RemoveButton | src/content/content.ts:223-232 | no button afterwards; the tooltip is untouched |
| Page.Overlay.ShowTooltip | src/content/content.ts:234-240 | the given tooltip replaces any earlier one; the button is untouched |
| Page.Overlay.RemoveTooltip | src/content/content.ts:457-467 | no tooltip afterwards; the button is untouched |
| Page.OnMessage | src/content/content.ts:469-486 | an unreadable message is answered with the unknown error; an article-text request is answered with the extracted text and keeps the channel open; "show-summary-tooltip" shows the summary with no reply; anything else changes nothing |
| Page.SummariseRequest | src/content/content.ts:179-184 | a "summarize-selection" request carrying the selection, asking for a tooltip, with the default brief type and no tab id |
| Page.OnButtonClick | src/content/content.ts:175-215 | the loading tooltip is shown, the request carries the button's selection, and the button is removed |
| Page.ResponseText | src/content/content.ts:185-207 | a send error shows "❌ Error: " and its message; otherwise a non-empty response is shown as is; otherwise the unknown-error text; never empty |
| Page.OnResponse | src/content/content.ts:185-207 | the tooltip ends up showing exactly the response text; the button is untouched |
| ContentTs.TooltipEnabled | src/content/content.ts:86-96 | the tooltip is off iff the stored general settings exist and set `enableTooltip` false; a failed read leaves it on |
| ContentTs.DarkMode | src/content/content.ts:99-118 | dark iff stored theme is "dark", or "auto" while the system prefers dark; a missing setting or failed read means light |
| ContentTs.OnMouseUp | src/content/content.ts:489-511 | a release on the button changes nothing; with the tooltip off the button is removed; otherwise a button appears iff the trimmed selection has at least ten characters, placed by `ensureInViewport` as a zero-size element and carrying the trimmed text; the tooltip is untouched |
| ContentTs.ButtonInViewport | src/content/content.ts:26-59 | the handler's button is always ten pixels inside the right edge, and inside the left one when the viewport is at least twenty pixels wide |
| ContentJs.OnMouseUp | src/content.js:99-113 | a release on the button changes nothing; otherwise a button appears iff the trimmed selection has at least ten characters, placed by `ensureInViewport` and carrying the trimmed text |
| ContentLegacy.RawArticleText | content.js:1-13 | article, else newline-joined paragraphs, else `main`, else body, with no sanitising or threshold |
| ContentLegacy.SanitisedAgrees | content.js:1-13 | for an article or a `main`-only page, the text of src/content.js (which reads the same `innerText`) is the legacy text sanitised; src/content/content.ts reads `textContent` and is not covered |
| ContentLegacy.OnMessage | content.js:15-25 | an article-text request is answered with the raw text and keeps the channel open; "show-summary" replaces the tooltip with the summary when there is a selection; the background's "show-summary-tooltip" is ignored |
| ContentLegacy.OnMouseUp | content.js:32-41 | any non-blank trimmed selection gets a button at the selection's bottom-right corner plus the scroll offsets; a blank one removes it |
| ContentLegacy.OnButtonClick | content.js:44-66 | sends a "summarize-selection" request with the selection and no tooltip request, and removes the button |
| JsString.TrimSlice | src/utils/security.ts:17 | `trim()` keeps one contiguous slice of the string, with no whitespace at its ends, and drops only whitespace before and after it |
| JsString.TrimIdempotent | src/utils/security.ts:17 | trimming a trimmed string changes nothing |
| JsString.TrimOfTrimmed | src/utils/security.ts:17 | a string without whitespace at either end is its own trim |
| JsString.TrimPadded | src/utils/security.ts:17 | whitespace added around a string does not change its trim |
| JsString.TrimAllSpace | src/utils/api.ts:28 | a string of whitespace alone trims to the empty string |
| JsString.StripAngles | src/content/content.ts:22 | `replace(/[<>]/g, "")` drops characters and keeps only ones of the input that are not angle brackets |
| JsString.StripAnglesNoOp | src/content/content.ts:22 | a string with no angle bracket is unchanged |
| JsString.StripAnglesAppend | src/content/content.ts:22 | the strip distributes over concatenation; with the contract of `StripAngles` and `StripAnglesNoOp`, every character that is not an angle bracket is kept, in order |
| JsString.SanitizeText | src/content/content.ts:20-23 | the result holds no angle bracket, only characters of the input, and no whitespace at either end |
| JsString.SanitizeTextFixes | src/content/content.ts:20-23 | a text already free of angle brackets and outer whitespace is its own sanitised form |
| JsString.SanitizeTextIdempotent | src/content/content.ts:20-23 | sanitising twice equals sanitising once |
| JsString.ContainsInfix | src/background/background.ts:141-151 | `includes` finds any string placed inside another |
| JsString.Split | src/utils/security.ts:200-203 | `split` gives at least one part and no part holds the separator |
| JsString.JoinSplit | src/utils/security.ts:200-203 | joining the parts of a split with the separator gives back the string |
| JsString.NatToString | src/utils/rateLimiter.ts:114 | the decimal text of a number is non-empty, all digits, and without a leading zero from 10 up |
| JsString.NatToStringRoundTrip | src/utils/rateLimiter.ts:114 | reading the decimal text back gives the number |
| Base64.SextetRoundTrip | src/utils/security.ts:51-63 | each 6-bit value's Base64 character is in the alphabet and decodes to that value |
| Base64.ToSextets | src/utils/security.ts:51 | n bytes give 4 sextets per full group of three, plus two or three for a final one or two bytes |
| Base64.SextetsRoundTrip | src/utils/security.ts:51-63 | regrouping the sextets of any bytes gives back those bytes |
| Base64.EncodeChars | src/utils/security.ts:51 | one alphabet character per sextet, in order |
| Base64.DecodeChars | src/utils/security.ts:63 | one sextet per alphabet character, in order |
| Base64.DecodeCharsOfEncode | src/utils/security.ts:51-63 | decoding the characters of encoded sextets gives back the sextets |
| Base64.BtoaLength | src/utils/security.ts:51 | `btoa` output is the sextet characters plus padding, a multiple of four long |
| Base64.StripPaddingOfBtoa | src/utils/security.ts:63 | stripping `atob`'s padding from `btoa` output leaves exactly the sextet characters |
| Base64.BtoaNoWhitespace | src/utils/security.ts:63 | `btoa` output has no ASCII whitespace for `atob` to drop |
| Base64.BtoaAtobRoundTrip | src/utils/security.ts:51-63 | `atob(btoa(b))` succeeds and gives back `b` for every byte string |
| Base64.Latin1Bytes | src/utils/security.ts:51 | a Latin-1 string becomes one byte per character, with the character's code |
| Base64.BinaryString | src/utils/security.ts:63 | bytes become one character per byte, with the byte's code |
| Base64.Latin1RoundTrip | src/utils/security.ts:51-63 | a Latin-1 string survives the trip to bytes and back |
| Storage.SyncStore.constructor | src/utils/security.ts:86-119 | the store holds the given items and fails as given |
| Storage.SyncStore.Get | src/utils/security.ts:101 | a failing store rejects; otherwise the key's stored value, or nothing when the key is absent |
| Storage.SyncStore.Set | src/utils/security.ts:86-89 | a working store takes in the items over the old ones; a failing one rejects with its error and keeps its data |
| Storage.SyncStore.Remove | src/utils/security.ts:119 | a working store drops exactly the keys; a failing one rejects with its error and keeps its data |
| Tts.GetVoiceFromSettings | src/utils/tts.ts:64-77 | null exactly when there are no voices |
| Tts.FirstMatchAt | src/utils/tts.ts:68-75 | `find` returns the first matching voice: it matches and no earlier voice does |
| Tts.FirstMatchNone | src/utils/tts.ts:68-75 | when `find` finds nothing, no voice matches |
| Tts.GetVoiceFromSettingsChoice | src/utils/tts.ts:64-77 | the chosen voice is one of the voices; it is the first matching one when any matches, and the first voice when none does |
| Tts.DefaultPicksGoogle | src/utils/tts.ts:15-18 | with the default settings, a voice whose name contains "Google US English" is picked whenever one exists |
| Tts.LoadOr | src/utils/tts.ts:80-88 | `stored \|\| default`: a truthy stored value is returned, a rejected read, a missing key or a falsy value gives the default |
| Tts.LoadTtsSettings | src/utils/tts.ts:80-88 | the stored TTS settings when present, the defaults when the key is absent or the read fails |
| Tts.LoadGeneralSettings | src/utils/tts.ts:101-111 | the stored general settings when present, the defaults when the key is absent or the read fails |
| Tts.SaveTtsSettings | src/utils/tts.ts:91-98 | succeeds iff storage works; then exactly the "ttsSettings" entry is replaced and loads back as saved; a failure rethrows and keeps the data |
| Tts.SaveGeneralSettings | src/utils/tts.ts:114-123 | succeeds iff storage works; then exactly the "generalSettings" entry is replaced and loads back as saved; a failure rethrows and keeps the data |
| PopupTsx.SpeechSession.constructor | src/pages/popup/Popup.tsx:30-41 | not speaking, not paused, no controls, not stopping, no utterance, nothing spoken, no error |
| PopupTsx.SpeechSession.StartTts | src/pages/popup/Popup.tsx:384-465 | an empty text or a session already speaking changes nothing; without speech support only the not-supported error is added; otherwise the engine is cancelled and the text spoken with the voice the settings choose, and the session speaks, unpaused, with the controls shown |
| PopupTsx.SpeechSession.OnEnd | src/pages/popup/Popup.tsx:413-419 | while stopping nothing changes; otherwise speaking, pause and controls all end |
| PopupTsx.SpeechSession.OnPause | src/pages/popup/Popup.tsx:421-425 | while stopping nothing changes; otherwise the session is paused and nothing else moves |
| PopupTsx.SpeechSession.OnResume | src/pages/popup/Popup.tsx:427-431 | while stopping nothing changes; otherwise the session is unpaused and nothing else moves |
| PopupTsx.SpeechSession.OnError | src/pages/popup/Popup.tsx:433-441 | while stopping nothing changes; otherwise speaking, pause and controls end and the TTS-failed error is added |
| PopupTsx.SpeechSession.PauseResume | src/pages/popup/Popup.tsx:467-480 | when not speaking or without pause support nothing happens; otherwise the engine is told to resume if paused and to pause if not, and the flags wait for its events |
| PopupTsx.SpeechSession.Stop | src/pages/popup/Popup.tsx:482-504 | when not speaking nothing happens; otherwise the stopping guard is raised, the engine cancelled, and speaking, pause, controls and utterance all cleared |
| PopupTsx.SpeechSession.StoppingTimerFires | src/pages/popup/Popup.tsx:493-495 | the 100 ms timer lowers the stopping guard and changes nothing else |
| PopupTsx.SpeechSession.OutsideClick | src/pages/popup/Popup.tsx:562-578 | a click outside the controls and the speak button while speaking hides the controls; anything else changes nothing |
| PopupTsx.SpeechSession.HandleSpeak | src/pages/popup/Popup.tsx:506-518 | while speaking, or when the trimmed result is empty or the placeholder, nothing changes; otherwise speaking starts with the trimmed result, or only the not-supported error is added when speech is unavailable |
| PopupTsx.ReplySettlement | src/pages/popup/Popup.tsx:270-309 | a runtime error rejects with its message; otherwise a non-empty string resolves with that summary and anything else rejects as an invalid response |
| PopupTsx.SummaryRequest.constructor | src/pages/popup/Popup.tsx:228 | not resolved, timer running, promise unsettled |
| PopupTsx.SummaryRequest.OnTimeout | src/pages/popup/Popup.tsx:231-240 | a timer that fires before any settlement rejects with the timeout message; after one, or once cleared, nothing changes |
| PopupTsx.SummaryRequest.OnReply | src/pages/popup/Popup.tsx:249-311 | the timer is always cleared; a closed popup or an already settled promise is left as it was; otherwise the promise settles as the reply dictates, at most once |
| PopupTsx.ResultAfter | src/pages/popup/Popup.tsx:314-324 | a resolved request replaces the result text with the summary; a rejection leaves it unchanged, since `showError` only logs |
| PopupTsx.ResultShowsOnlyAnswers | src/pages/popup/Popup.tsx:270-324 | the result text changes only to a non-empty string the background answered with, and always to that string; a send error or any other answer leaves it unchanged |
| PopupTsx.SummaryView.constructor | src/pages/popup/Popup.tsx:24-27 | the placeholder text, not loading |
| PopupTsx.SummaryView.Begin | src/pages/popup/Popup.tsx:159-163 | the spinner shows and the result text stays |
| PopupTsx.SummaryView.Abort | src/pages/popup/Popup.tsx:170-215 | a missing tab or no extracted text only logs: the spinner stops and the result text stays |
| PopupTsx.SummaryView.Settled | src/pages/popup/Popup.tsx:314-324 | the spinner stops, and the result text becomes `ResultAfter` of the old text and the settlement |
| TextToSpeech.Speech.constructor | text-to-speech.js:1-3 | no utterance, not speaking, not paused, the button's label as given, nothing spoken |
| TextToSpeech.Speech.Toggle | text-to-speech.js:5-36 | blank text does nothing; with no utterance or no speech a new one is spoken with the Google US English voice or else the first, labelled Pause; while speaking it pauses (labelled Resume), and while paused it resumes (labelled Pause) |
| TextToSpeech.Speech.OnEnd | text-to-speech.js:17-21 | speaking and pause both end and the button reads Listen |
| TextToSpeech.PauseThenResume | text-to-speech.js:27-34 | speak, click, click leaves the speech playing and unpaused after the engine was told to pause and then to resume |
| PopupJs.ResultText | popup.js:9-58 | no active tab, a tab with id 0, a failed extraction, an empty text, a failed summary, an empty summary and a summary each give their own result text, never empty |
| PopupJs.SpeakButton.constructor | popup.js:70-72 | not speaking, not paused, no utterance, the button's label as given, nothing spoken |
| PopupJs.SpeakButton.Click | popup.js:74-99 | blank text does nothing; when not speaking the trimmed result is spoken with the Google US English voice or else the first, labelled Pause; while speaking and not paused it pauses, labelled Paused; while paused a click does nothing |
| PopupJs.SpeakButton.OnEnd | popup.js:86-89 | speaking ends and the button reads Listen, but the pause flag stays as it was |
| PopupJs.PausedIsStuck | popup.js:79-98 | after speak and pause, a further click neither resumes nor changes anything: the session stays paused |
| PopupJs.PauseOutlivesSpeech | popup.js:86-96 | after a pause, an `onend` event leaves `isPaused` set, so a speech started after it is already marked as paused; this assumes the engine fires `onend` for a paused utterance (for instance once it is cancelled), which the source does not show |
| OptionsCommon.ValidEmailParts | src/pages/options/Options.tsx:399 | an address the pattern accepts splits as local part, "@", domain, ".", top-level part, all non-empty and free of whitespace and "@" |
| OptionsCommon.ValidEmailFromParts | options.js:443-446 | any such non-empty parts joined with "@" and "." form an address the pattern accepts |
| OptionsCommon.ValidEmailOneAt | options.js:443-446 | an accepted address holds exactly one "@" |
| OptionsCommon.FeedbackError | src/pages/options/Options.tsx:383-405 | no error iff the message has 20 to 500 characters and the email is empty or well-formed; otherwise too short, then too long, then bad email, in that order |
| OptionsCommon.CheckFeedback | src/pages/options/Options.tsx:383-420 | a refused message posts nothing and shows its error; an accepted one shows "Sending feedback...", posts the message as given, and the email exactly when one was typed; whatever is posted meets the bounds and the pattern |
| OptionsCommon.CharCountColour | src/pages/options/Options.tsx:452-456 | red above 450 characters, amber above 400 up to 450, neutral at 400 or fewer |
| OptionsCommon.CharCountColourMonotone | options.js:513-519 | a longer message never has a calmer counter colour |
| OptionsTsx.Toggle | src/pages/options/Options.tsx:364-376 | the key flips (an unset key becomes expanded) and every other entry is kept |
| OptionsTsx.ToggleTwice | src/pages/options/Options.tsx:364-376 | two toggles of one key leave every entry reading as before |
| OptionsTsx.OptionsPage.constructor | src/pages/options/Options.tsx:36-76 | the general section, no messages, nothing expanded, no test playing, an empty idle form |
| OptionsTsx.OptionsPage.ShowSection | src/pages/options/Options.tsx:244-248 | the section becomes active and all error messages are cleared; nothing else changes |
| OptionsTsx.OptionsPage.ToggleAccordion | src/pages/options/Options.tsx:364-369 | only the given accordion flips, independently of the others |
| OptionsTsx.OptionsPage.ToggleFaq | src/pages/options/Options.tsx:371-376 | only the given question flips, independently of the others |
| OptionsTsx.OptionsPage.SaveApiSettings | src/pages/options/Options.tsx:270-293 | a blank key sets the API error and stores nothing; otherwise the key is stored encrypted with its timestamp and reads back as typed, with success shown; a storage failure sets the save error and stores nothing |
| OptionsTsx.OptionsPage.SaveGeneralSettings | src/pages/options/Options.tsx:251-268 | the general settings are stored, load back, and success is shown; a storage failure sets the save error and stores nothing |
| OptionsTsx.OptionsPage.SaveTtsSettings | src/pages/options/Options.tsx:295-311 | the voice settings are stored, load back, and success is shown; a storage failure sets the save error and stores nothing |
| OptionsTsx.OptionsPage.TestVoice | src/pages/options/Options.tsx:314-361 | a playing test is cancelled; blank text and missing speech support each set their error and speak nothing; otherwise the trimmed text is spoken with the voice the settings choose |
| OptionsTsx.OptionsPage.TestEnded | src/pages/options/Options.tsx:344-347 | the test stops playing; nothing else changes |
| OptionsTsx.OptionsPage.TestFailed | src/pages/options/Options.tsx:349-356 | the test stops playing and the voice error is set |
| OptionsTsx.OptionsPage.SubmitFeedback | src/pages/options/Options.tsx:379-420 | the status and the post are what the feedback rules give for the message and email as typed, untrimmed |
| OptionsTsx.OptionsPage.FeedbackSettled | src/pages/options/Options.tsx:430-446 | a successful POST thanks the user and clears both fields; a failure shows the send error and keeps them |
| OptionsJs.AllSectionsCover | options.js:69-132 | the five navigation functions cover every section |
| OptionsJs.SelectOnly | options.js:69-132 | afterwards every section has a flag, set exactly for the chosen one |
| OptionsJs.ThemeFromRadios | options.js:313-317 | "light" iff the light radio is checked, "dark" iff only the dark one is, "auto" otherwise |
| OptionsJs.RadioForTheme | options.js:273-279 | the light radio iff the theme is "light", the dark one iff it is "dark", auto for anything else |
| OptionsJs.ThemeRoundTrip | options.js:273-317 | saving from a checked radio and loading back checks that same radio |
| OptionsJs.ThemeNormalises | options.js:273-317 | loading a theme and saving again keeps "light" and "dark" and turns anything else into "auto" |
| OptionsJs.LoadedRadio | options.js:245-286 | a failed read checks no radio; a missing setting checks auto; a stored theme checks its own radio |
| OptionsJs.ExpandableList.constructor | options.js:469-506 | the list starts with the given expanded flags |
| OptionsJs.ExpandableList.Click | options.js:469-506 | after a click only the clicked item can be expanded, and it is iff it was collapsed; at most one item is ever expanded |
| OptionsJs.OptionsScript.constructor | options.js:52-53 | no test playing, the Test Voice caption, no alerts, no banner, an empty enabled form |
| OptionsJs.OptionsScript.ShowSection | options.js:69-132 | exactly the chosen section is displayed and exactly its button is active; nothing else changes |
| OptionsJs.OptionsScript.TestVoice | options.js:185-221 | a playing test is cancelled; blank text raises an alert and speaks nothing; otherwise the trimmed text is spoken with the chosen voice, with no support check; the caption follows |
| OptionsJs.OptionsScript.TestEnded | options.js:205-209 | the test stops and the caption returns to Test Voice |
| OptionsJs.OptionsScript.TestFailed | options.js:211-216 | the test stops, the caption returns and an alert is raised |
| OptionsJs.OptionsScript.SaveApiSettings | options.js:288-306 | a blank trimmed key raises an alert; otherwise the trimmed key is written as it is under "geminiApiKey" and the banner shows; a storage failure alerts and writes nothing |
| OptionsJs.OptionsScript.SaveGeneralSettings | options.js:308-333 | the checkbox, summary type and radio theme are written together, load back with the radio that was checked, and the banner shows; a storage failure alerts and writes nothing |
| OptionsJs.OptionsScript.SaveTtsSettings | options.js:335-352 | the voice and speed are written, load back, and the banner shows; a storage failure alerts and writes nothing |
| OptionsJs.OptionsScript.SubmitFeedback | options.js:355-399 | the status and post are what the feedback rules give for the trimmed message and email; posting disables the submit button |
| OptionsJs.OptionsScript.FeedbackSettled | options.js:411-429 | the submit button is re-enabled; success thanks the user and resets the form; failure shows the send error and keeps it |
| OptionsJs.TrimmedMessageLongEnough | options.js:358-362 | a message whose trimmed form passes the length floor passes it untrimmed as well |
| OptionsJs.TrailingSpaceDivergence | src/pages/options/Options.tsx:383 | a 19-character message with a trailing space is accepted by the React page and refused as too short by options.js |

## Left out

- Timers and sleeps are left out: the 50 ms pause between API attempts, the 2000 ms wait before a 503 retry, the 100 ms stopping guard, the 10 ms delayed resolve, the 25 s popup timeout, and the 3 s and 5 s banner timeouts. Each is a discrete step or a method (`StoppingTimerFires`, `OnTimeout`), not elapsed time.
- The DOM is not modelled: a `Page.Document` carries the text property the script at hand reads, which is `textContent` for src/content/content.ts and `innerText` for content.js and src/content.js. The difference between the two (script, style and hidden text, whitespace layout) is not modelled, so no lemma relates content.ts's extract to the other two.
- The network, Chrome messaging, tabs, script injection, context menus and `openOptionsPage` are abstract. They are parameters (outcomes, `lastError`), or events in a trace.
- `testApiKey` (src/utils/api.ts:165-209) is a separate network probe that no modelled path calls.
- The Formspree POST of the feedback forms is reduced to the post the form would send and the `ok` flag that settles it.
- `generateSecureId` depends on `Math.random`.
- Browser support checks (`isTTSSupported`, `isPauseResumeSupported`) are boolean parameters.
- `waitForVoices` is not modelled: voices are a parameter, and the promise that never resolves with no `onvoiceschanged` is not represented.
- DOM construction and styling are left out: tooltips' markup, positions and animations, `applyTheme`, the copy button, notifications, `overlay.js`, and React rendering. The content scripts' globals are modelled as the button's position and text and the tooltip's text.
- The first content script's tooltip placement and its 15 s auto-hide are DOM and timers.
- Speech rate and pitch are floats and are not modelled; the speed of `options.js` is carried as a `real` that is only stored.
- JavaScript string lengths count UTF-16 code units. The model counts Dafny characters, which agree for text in the Basic Multilingual Plane.
- `btoa` throws on a character above U+00FF; this is modelled as `encryptApiKey` returning "", which is what its `catch` does.
- The outcome of `Classify` on each concrete message of `src/utils/api.ts` is stated in prose above, not proved as a lemma. It depends on which characters occur in long string constants, which the verifier does not decide cheaply. `Classify` and `ClassifyFirstMatch` state the rule for every message.
- Regular expressions are modelled by hand-written predicates: the email pattern, the `<>` strip, the case-insensitive `javascript:`/`data:` removal and the whitespace set of `trim`.
- Summarizer.PromptFor: a summary type naming an `Object.prototype` member (such as "constructor") is treated as unknown and falls back to "brief", whereas the JavaScript lookup would find the inherited member.
- Security.ValidateApiKey: the argument is a string; the non-string guard of the source (typed `string` in TypeScript) is not modelled.
- Page.OnResponse: a truthy answer that is not a string is treated like no answer (the unknown error). The background only ever answers with strings.
- BackgroundJs.OnMessage: a null message, on which reading `type` throws in the listener itself, is not modelled.
- PopupTsx: `handleSummarize` is modelled as the spinner and result text (`SummaryView`) and the summary request (`ReplySettlement`, `SummaryRequest`, `ResultAfter`). The tab query, script injection and article-text request are platform calls. Their failures only reach `showError`, which logs, and `SummaryView.Abort` covers those paths.
- PopupTsx.SpeechSession: the React closures are taken to see the current state; a callback reading a stale `isSpeaking` is not modelled.
- The `catch` blocks of the speech handlers in Popup.tsx are not modelled; they only run when the engine throws.
- OptionsJs.ExpandableList: the `aria-expanded` attribute and the answer's class are one flag per item. The code always sets them together.
- OptionsJs: `loadVoices` and `populateVoiceSelect` only fill the voice list. Of `loadSettings`, only the theme radio (`LoadedRadio`) is modelled; the other loaded fields are copied into inputs unchanged.
- Options.tsx: the settings loading effect only copies stored values into state, through `Tts.LoadTtsSettings` and `Tts.LoadGeneralSettings`.

## Findings

| source | as written | input that shows it | evidently intended | confidence | as-written member | corrected member |
|---|---|---|---|---|---|---|
| popup.js:79-98 | the speak button's handler has branches only for "not speaking" and "speaking, not paused"; `isPaused` is never reset, not even in `onend` | speak, then click to pause, then click again: nothing resumes; and if the engine fires `onend` for the paused utterance, every later speech also starts marked as paused | a third click resumes, and the end of speech clears the pause, as `toggleSpeech` in text-to-speech.js does | not executed | PopupJs.PausedIsStuck | TextToSpeech.PauseThenResume |
