/** The runtime-message handler of the first service worker (background.js):
    it reads the stored key as it is, opens the options page when the key is
    falsy, otherwise hands the text to the summariser of src/summarizer.js,
    pushes the summary or the error to a tab when asked, and replies once
    through `sendResponse`. */
module BackgroundJs {
  import opened Common
  import opened Storage
  import opened Messaging
  import Summarizer

  /** The reply to a falsy stored key. */
  const ApiKeyMissing: string := "\U{274C} API key missing. Please enter it in the options page."

  /** The prefix of every error reply. */
  const ErrorPrefix: string := "Gemini Error: "

  /** The storage key the handler reads. */
  const KeyName: string := "geminiApiKey"

  /** The key as the summariser sees it: `None` unless it is a string. */
  function KeyText(v: StoredValue): (key: Option<string>)
    ensures key.Some? <==> v.Text?
    ensures key.Some? ==> key.value == v.text
  {
    if v.Text? then Some(v.text) else None
  }

  /** The tab a summary goes to, `sender.tab?.id ?? message.tabId`: the
      sender's tab whenever there is one, even with id 0. */
  function SummaryTab(senderTab: Option<int>, m: Message): (tab: Option<int>)
    ensures senderTab.Some? ==> tab == senderTab
    ensures senderTab.None? ==> tab == m.tabId
  {
    if senderTab.Some? then senderTab else m.tabId
  }

  /** The one response for a settled summariser call: the summary, or
      "Gemini Error: " and the error's message. */
  function ReplyText(result: Result<string, string>): string
  {
    if result.Ok? then result.value else ErrorPrefix + result.error
  }

  /** The end of a request once the summariser has settled (or the key
      lookup has rejected): the summary goes, as a tooltip, to `SummaryTab`
      when `showTooltip` is set and that tab is defined; an error becomes
      "Gemini Error: " and its message, and goes as a tooltip only to a
      sender tab with a non-zero id; then the summary or the error is the
      one response. */
  method Settle(m: Message, senderTab: Option<int>, result: Result<string, string>)
    returns (effects: seq<Effect>)
    ensures RespondsOnce(effects)
    ensures forall k :: 0 <= k < |effects| ==> effects[k].TabMessage? || effects[k].SendResponse?
    ensures effects[|effects| - 1] == SendResponse(ReplyText(result))
    ensures result.Ok? ==> (|effects| == 2 <==> m.showTooltip && SummaryTab(senderTab, m).Some?)
    ensures result.Err? ==> (|effects| == 2 <==> m.showTooltip && senderTab.Some? && senderTab.value != 0)
    ensures |effects| == 2 ==>
      effects[0] == TabMessage(if result.Ok? then SummaryTab(senderTab, m).value else senderTab.value,
                               effects[1].response)
    ensures |effects| <= 2
  {
    match result {
      case Ok(summary) =>
        var tabId := SummaryTab(senderTab, m);
        if m.showTooltip && tabId.Some? {
          effects := [TabMessage(tabId.value, summary), SendResponse(summary)];
        } else {
          effects := [SendResponse(summary)];
        }
      case Err(message) =>
        var errorMsg := ErrorPrefix + message;
        if m.showTooltip && senderTab.Some? && senderTab.value != 0 {
          effects := [TabMessage(senderTab.value, errorMsg), SendResponse(errorMsg)];
        } else {
          effects := [SendResponse(errorMsg)];
        }
    }
  }

  /** What the summariser answers for a message whose stored key is
      `key`, at time `now`, against the limiter's `history`. */
  function SummaryResult(m: Message, key: StoredValue, history: seq<int>, now: int,
                         reply: Summarizer.GeminiReply): Summarizer.Outcome
  {
    Summarizer.Summarize(m.text, SummaryTypeOf(m), KeyText(key), history, now, reply)
  }

  /** The summariser call for a truthy stored key, and its settlement. */
  method SummariseWithKey(m: Message, senderTab: Option<int>, key: StoredValue,
                          tracker: Summarizer.RequestTracker, now: int, reply: Summarizer.GeminiReply)
    returns (effects: seq<Effect>)
    requires tracker.Valid()
    modifies tracker
    ensures tracker.Valid()
    ensures RespondsOnce(effects) && OpenOptionsPage !in effects
    ensures var o := SummaryResult(m, key, old(tracker.requestHistory), now, reply);
      tracker.requestHistory == o.history && effects[|effects| - 1] == SendResponse(ReplyText(o.result))
  {
    var result, _ := Summarizer.GetGeminiSummary(tracker, m.text, SummaryTypeOf(m), KeyText(key), now, reply);
    effects := Settle(m, senderTab, result);
  }

  /** The asynchronous block: the key lookup, then the missing-key path or
      the summariser call, with every rejection caught. `tracker` is the
      summariser's module-level history; `now` and `reply` are the clock
      and the Gemini reply for the summariser's call. */
  method HandleSummarise(m: Message, senderTab: Option<int>, store: SyncStore,
                         tracker: Summarizer.RequestTracker, now: int, reply: Summarizer.GeminiReply)
    returns (effects: seq<Effect>)
    requires tracker.Valid()
    modifies tracker
    ensures tracker.Valid()
    ensures RespondsOnce(effects)
    ensures store.Get(KeyName).Err? ==>
      effects[|effects| - 1] == SendResponse(ErrorPrefix + store.Get(KeyName).error.message)
      && tracker.requestHistory == old(tracker.requestHistory)
    ensures store.Get(KeyName).Ok? && (store.Get(KeyName).value.None? || !Truthy(store.Get(KeyName).value.value)) ==>
      effects == [OpenOptionsPage, SendResponse(ApiKeyMissing)]
      && tracker.requestHistory == old(tracker.requestHistory)
    ensures store.Get(KeyName).Ok? && store.Get(KeyName).value.Some? && Truthy(store.Get(KeyName).value.value) ==>
      var o := SummaryResult(m, store.Get(KeyName).value.value, old(tracker.requestHistory), now, reply);
      && tracker.requestHistory == o.history
      && effects[|effects| - 1] == SendResponse(ReplyText(o.result))
      && OpenOptionsPage !in effects
  {
    var lookup := store.Get(KeyName);
    if lookup.Err? {
      effects := Settle(m, senderTab, Err(lookup.error.message));
      return;
    }
    if lookup.value.None? || !Truthy(lookup.value.value) {
      effects := [OpenOptionsPage, SendResponse(ApiKeyMissing)];
      return;
    }
    effects := SummariseWithKey(m, senderTab, lookup.value.value, tracker, now, reply);
  }

  /** The `onMessage` listener: summarise requests start the asynchronous
      block and keep the channel open; every other message gets no
      response. */
  method OnMessage(m: Message, senderTab: Option<int>, store: SyncStore,
                   tracker: Summarizer.RequestTracker, now: int, reply: Summarizer.GeminiReply)
    returns (keepOpen: bool, effects: seq<Effect>)
    requires tracker.Valid()
    modifies tracker
    ensures tracker.Valid()
    ensures keepOpen <==> IsSummariseRequest(m)
    ensures !keepOpen ==> effects == [] && tracker.requestHistory == old(tracker.requestHistory)
    ensures keepOpen ==> RespondsOnce(effects)
  {
    if !IsSummariseRequest(m) {
      return false, [];
    }
    effects := HandleSummarise(m, senderTab, store, tracker, now, reply);
    keepOpen := true;
  }
}
