/** The extension's runtime messages and the effects a message handler has:
    its reply through `sendResponse`, opening the options page, handing the
    text to the summariser, and messages pushed to a tab. */
module Messaging {
  import opened Common

  /** A runtime message, as far as the handlers read it. `text` is `None`
      when the field is missing or not a string; `summaryType` is `None`
      when it is missing; `tabId` is `None` unless it is a number. */
  datatype Message = Message(
    kind: Option<string>,          // `message.type`
    action: Option<string>,        // `message.action`
    text: Option<string>,
    summaryType: Option<string>,
    showTooltip: bool,             // whether `message.showTooltip` is truthy
    tabId: Option<int>)

  /** What a handler does, in order. */
  datatype Effect =
    | SendResponse(response: string)
    | OpenOptionsPage
    | Summarise(text: string, summaryType: string)
    | TabMessage(tabId: int, summary: string)

  /** The messages the background worker answers: a `summarize-selection`
      type or a `summarize_text` action. */
  predicate IsSummariseRequest(m: Message)
  {
    m.kind == Some("summarize-selection") || m.action == Some("summarize_text")
  }

  /** The summary type of a message: `"brief"` when the field is missing. */
  function SummaryTypeOf(m: Message): (t: string)
    ensures m.summaryType.Some? ==> t == m.summaryType.value
    ensures m.summaryType.None? ==> t == "brief"
  {
    if m.summaryType.Some? then m.summaryType.value else "brief"
  }

  /** `sendResponse` is called exactly once, as the last effect. */
  predicate RespondsOnce(effects: seq<Effect>)
  {
    effects != [] && effects[|effects| - 1].SendResponse?
    && forall k :: 0 <= k < |effects| - 1 ==> !effects[k].SendResponse?
  }

  /** Effects that make no `sendResponse` call, followed by one, respond
      once. */
  lemma RespondsOnceAfter(before: seq<Effect>, response: string)
    requires forall k :: 0 <= k < |before| ==> !before[k].SendResponse?
    ensures RespondsOnce(before + [SendResponse(response)])
  {
    var all := before + [SendResponse(response)];
    assert forall k :: 0 <= k < |all| - 1 ==> all[k] == before[k];
  }

  /** Effects that make no `sendResponse` call, followed by effects that
      respond once, respond once. */
  lemma RespondsOnceAppend(before: seq<Effect>, after: seq<Effect>)
    requires forall k :: 0 <= k < |before| ==> !before[k].SendResponse?
    requires RespondsOnce(after)
    ensures RespondsOnce(before + after)
  {
    var all := before + after;
    assert all[|all| - 1] == after[|after| - 1];
    forall k | 0 <= k < |all| - 1 ensures !all[k].SendResponse? {
      if k >= |before| {
        assert all[k] == after[k - |before|];
      }
    }
  }

  /** The number of `sendResponse` calls among the effects. */
  function ResponseCount(effects: seq<Effect>): nat
  {
    if effects == [] then 0
    else (if effects[0].SendResponse? then 1 else 0) + ResponseCount(effects[1..])
  }

  /** Responding once at the end is making exactly one `sendResponse` call
      and making it last. */
  lemma {:induction false} RespondsOnceCount(effects: seq<Effect>)
    ensures RespondsOnce(effects) <==>
      ResponseCount(effects) == 1 && effects[|effects| - 1].SendResponse?
  {
    if effects != [] {
      var tail := effects[1..];
      RespondsOnceCount(tail);
      if tail == [] {
      } else if effects[0].SendResponse? {
        assert tail[|tail| - 1] == effects[|effects| - 1];
        if ResponseCount(tail) != 0 {
          assert !RespondsOnce(effects) by {
            assert effects[0].SendResponse?;
          }
        }
        if effects[|effects| - 1].SendResponse? {
          EndsWithResponse(tail);
        }
      } else {
        assert tail[|tail| - 1] == effects[|effects| - 1];
        assert RespondsOnce(effects) <==> RespondsOnce(tail) by {
          if RespondsOnce(tail) {
            forall k | 0 <= k < |effects| - 1 ensures !effects[k].SendResponse? {
              if k > 0 { assert effects[k] == tail[k - 1]; }
            }
          }
          if RespondsOnce(effects) {
            forall k | 0 <= k < |tail| - 1 ensures !tail[k].SendResponse? {
              assert tail[k] == effects[k + 1];
            }
          }
        }
      }
    }
  }

  /** Effects that end with a response count at least one. */
  lemma {:induction false} EndsWithResponse(effects: seq<Effect>)
    requires effects != [] && effects[|effects| - 1].SendResponse?
    ensures ResponseCount(effects) >= 1
  {
    if |effects| > 1 {
      assert effects[1..][|effects[1..]| - 1] == effects[|effects| - 1];
      EndsWithResponse(effects[1..]);
    }
  }
}
