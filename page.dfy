/** The web page as the content scripts see it: the texts of the elements
    they query, the geometry they place the button with, and the two
    page-level globals (`summarizeBtn`, `summaryTooltip`) they update. */
module Page {
  import opened Common
  import opened JsString
  import opened Messaging

  /** The parts of the document `getArticleText` queries: the text of the
      first `article`, of every `p` in document order, of the first `main`,
      and of `document.body` (`None` when there is no body, where reading
      its text throws). Each text is the property the script at hand reads:
      `textContent` for src/content/content.ts, which keeps script, style
      and hidden text and raw whitespace, and `innerText` for content.js
      and src/content.js, so one value describes one script's view. */
  datatype Document = Document(
    article: Option<string>,
    paragraphs: seq<string>,
    main: Option<string>,
    body: Option<string>)

  /** The selection's bounding rectangle, in viewport pixels. */
  datatype Rect = Rect(top: int, bottom: int, left: int, right: int)

  /** The window: its inner size and its scroll offsets. */
  datatype Viewport = Viewport(width: int, height: int, scrollX: int, scrollY: int)

  /** A page position, in document pixels. */
  datatype Position = Position(top: int, left: int)

  /** Each paragraph's text sanitised. */
  function SanitizeAll(texts: seq<string>): (r: seq<string>)
    ensures |r| == |texts|
    ensures forall k :: 0 <= k < |texts| ==> r[k] == SanitizeText(texts[k])
  {
    seq(|texts|, k requires 0 <= k < |texts| => SanitizeText(texts[k]))
  }

  /** The paragraphs' sanitised texts joined by newlines. */
  function ParagraphText(texts: seq<string>): string
  {
    Join(SanitizeAll(texts), "\n")
  }

  /** Joined sanitised paragraphs hold no angle bracket. */
  lemma ParagraphTextClean(texts: seq<string>)
    ensures forall c :: c in ParagraphText(texts) ==> !IsAngle(c)
  {
    forall c | c in ParagraphText(texts) ensures !IsAngle(c) {
      JoinChars(SanitizeAll(texts), "\n", c);
      if c !in "\n" {
        var k :| 0 <= k < |SanitizeAll(texts)| && c in SanitizeAll(texts)[k];
        assert c in SanitizeText(texts[k]);
      }
    }
  }

  /** `getArticleText()` of the two sanitising content scripts: the
      article's text when there is an article; otherwise, when there are
      paragraphs, their joined text if it is longer than ten characters and
      the empty string if not, never looking further; otherwise the text of
      `main`; otherwise the body's text if it is longer than ten characters.
      Every piece is sanitised, and a throw yields the empty string. */
  function ArticleText(doc: Document): (text: string)
    ensures forall c :: c in text ==> !IsAngle(c)
    ensures doc.article.Some? ==> text == SanitizeText(doc.article.value)
    ensures doc.article.None? && doc.paragraphs != [] ==>
      (text != "" <==> |ParagraphText(doc.paragraphs)| > 10)
      && (text != "" ==> text == ParagraphText(doc.paragraphs))
    ensures doc.article.None? && doc.paragraphs == [] && doc.main.Some? ==> text == SanitizeText(doc.main.value)
    ensures doc.article.None? && doc.paragraphs == [] && doc.main.None? ==>
      (text != "" <==> doc.body.Some? && |SanitizeText(doc.body.value)| > 10)
      && (text != "" ==> text == SanitizeText(doc.body.value))
  {
    if doc.article.Some? then SanitizeText(doc.article.value)
    else if doc.paragraphs != [] then
      ParagraphTextClean(doc.paragraphs);
      var text := ParagraphText(doc.paragraphs);
      if |text| > 10 then text else ""
    else if doc.main.Some? then SanitizeText(doc.main.value)
    else if doc.body.None? then ""
    else
      var bodyText := SanitizeText(doc.body.value);
      if |bodyText| > 10 then bodyText else ""
  }

  /** Once there are paragraphs (and no article), `main` and the body are
      never consulted. */
  lemma ParagraphsShadowMain(doc: Document, main: Option<string>, body: Option<string>)
    requires doc.article.None? && doc.paragraphs != []
    ensures ArticleText(doc.(main := main, body := body)) == ArticleText(doc)
  {
  }

  /** `ensureInViewport(element, rect)` for an element of the given size:
      the button goes fifty pixels above the selection, below it when that
      is within ten pixels of the top, and above it again, by the element's
      height, when that runs within ten pixels of the bottom; its left edge
      is moved right to ten pixels, then left until its right edge is ten
      pixels inside the viewport. The right margin always holds; the left
      one only when the element fits between both margins. */
  function EnsureInViewport(rect: Rect, view: Viewport, width: int, height: int): (p: Position)
    ensures p.left + width <= view.width - 10
    ensures width <= view.width - 20 ==> p.left >= 10
    ensures 10 <= rect.left + view.scrollX <= view.width - 10 - width ==> p.left == rect.left + view.scrollX
    ensures p.top + height <= view.scrollY + view.height - 10 || p.top == rect.top + view.scrollY - height - 10
    ensures p.top == rect.top + view.scrollY - 50 || p.top == rect.bottom + view.scrollY + 10
         || p.top == rect.top + view.scrollY - height - 10
    ensures rect.top + view.scrollY - 50 >= 10 && rect.top + view.scrollY - 50 + height <= view.scrollY + view.height - 10 ==>
      p.top == rect.top + view.scrollY - 50
  {
    var top0 := rect.top + view.scrollY - 50;
    var left0 := rect.left + view.scrollX;
    var top1 := if top0 < 10 then rect.bottom + view.scrollY + 10 else top0;
    var top2 := if top1 + height > view.scrollY + view.height - 10 then rect.top + view.scrollY - height - 10 else top1;
    var left1 := if left0 < 10 then 10 else left0;
    var left2 := if left1 + width > view.width - 10 then view.width - width - 10 else left1;
    Position(top2, left2)
  }

  /** A position already inside the margins is a fixed point of the left
      clamp: placing the element again where it was put leaves its left edge
      where it is. */
  lemma EnsureInViewportStable(rect: Rect, view: Viewport, width: int, height: int)
    requires width <= view.width - 20
    ensures var p := EnsureInViewport(rect, view, width, height);
      EnsureInViewport(rect.(left := p.left - view.scrollX), view, width, height).left == p.left
  {
  }

  /** The summarise button: where it sits and the selection it carries. */
  datatype Button = Button(position: Position, selectedText: string)

  /** The summary tooltip: the loading indicator or a text. */
  datatype Tooltip = Loading | Summary(text: string)

  /** The page-level globals of a content script. */
  class Overlay {
    var summarizeBtn: Option<Button>
    var summaryTooltip: Option<Tooltip>

    constructor()
      ensures summarizeBtn.None? && summaryTooltip.None?
    {
      summarizeBtn := None;
      summaryTooltip := None;
    }

    /** `showSummarizeButton`: the old button is removed and the new one
        shown. */
    method ShowButton(position: Position, selectedText: string)
      modifies this
      ensures summarizeBtn == Some(Button(position, selectedText))
      ensures summaryTooltip == old(summaryTooltip)
    {
      RemoveButton();
      summarizeBtn := Some(Button(position, selectedText));
    }

    /** `removeSummarizeButton`. */
    method RemoveButton()
      modifies this
      ensures summarizeBtn.None?
      ensures summaryTooltip == old(summaryTooltip)
    {
      if summarizeBtn.Some? {
        summarizeBtn := None;
      }
    }

    /** `showSummaryTooltip` / `showLoadingTooltip`: the old tooltip is
        removed and the new one shown. */
    method ShowTooltip(tooltip: Tooltip)
      modifies this
      ensures summaryTooltip == Some(tooltip)
      ensures summarizeBtn == old(summarizeBtn)
    {
      RemoveTooltip();
      summaryTooltip := Some(tooltip);
    }

    /** `removeSummaryTooltip`. */
    method RemoveTooltip()
      modifies this
      ensures summaryTooltip.None?
      ensures summarizeBtn == old(summarizeBtn)
    {
      if summaryTooltip.Some? {
        summaryTooltip := None;
      }
    }
  }

  /** `ERROR_MESSAGES.UNKNOWN_ERROR` of the content scripts. */
  const UnknownError: string := "\U{274C} An unexpected error occurred. Please try again."

  /** The prefix of a tooltip that reports a failed message send. */
  const SendErrorPrefix: string := "\U{274C} Error: "

  /** A runtime message to a content script: its `type` and its `summary`
      field. */
  datatype Request = Request(kind: string, summary: string)

  /** What a content script passes to `sendResponse`. */
  datatype Reply = TextReply(text: string) | ErrorReply(error: string)

  /** The `onMessage` listener of the two sanitising content scripts. `req`
      is `None` for a null message, whose `type` cannot be read, so that the
      listener's `catch` replies with the unknown error. An article-text
      request is answered with `getArticleText()` and keeps the channel
      open; a tooltip push shows the summary and gets no reply; anything
      else is ignored. */
  method OnMessage(overlay: Overlay, req: Option<Request>, doc: Document)
    returns (keepOpen: bool, replies: seq<Reply>)
    modifies overlay
    ensures req.None? ==> !keepOpen && replies == [ErrorReply(UnknownError)]
    ensures req.Some? && req.value.kind == "GET_ARTICLE_TEXT" ==>
      keepOpen && replies == [TextReply(ArticleText(doc))]
    ensures req.Some? && req.value.kind == "show-summary-tooltip" ==>
      !keepOpen && replies == [] && overlay.summaryTooltip == Some(Summary(req.value.summary))
    ensures req.Some? && req.value.kind != "GET_ARTICLE_TEXT" ==> !keepOpen && replies == []
    ensures overlay.summarizeBtn == old(overlay.summarizeBtn)
    ensures (req.None? || req.value.kind != "show-summary-tooltip") ==>
      overlay.summaryTooltip == old(overlay.summaryTooltip)
  {
    if req.None? {
      return false, [ErrorReply(UnknownError)];
    }
    if req.value.kind == "GET_ARTICLE_TEXT" {
      var text := ArticleText(doc);
      return true, [TextReply(text)];
    }
    if req.value.kind == "show-summary-tooltip" {
      overlay.ShowTooltip(Summary(req.value.summary));
    }
    return false, [];
  }

  /** The message a click on the summarise button sends. */
  function SummariseRequest(selectedText: string): (m: Message)
    ensures IsSummariseRequest(m) && m.showTooltip && m.text == Some(selectedText)
    ensures SummaryTypeOf(m) == "brief" && m.tabId.None?
  {
    Message(Some("summarize-selection"), None, Some(selectedText), None, true, None)
  }

  /** A click on the summarise button of the two sanitising content
      scripts: the loading tooltip, the request with the button's
      selection, and the button removed. */
  method OnButtonClick(overlay: Overlay) returns (sent: Message)
    requires overlay.summarizeBtn.Some?
    modifies overlay
    ensures sent == SummariseRequest(old(overlay.summarizeBtn).value.selectedText)
    ensures overlay.summaryTooltip == Some(Loading)
    ensures overlay.summarizeBtn.None?
  {
    var selectedText := overlay.summarizeBtn.value.selectedText;
    overlay.ShowTooltip(Loading);
    sent := SummariseRequest(selectedText);
    overlay.RemoveButton();
  }

  /** The text shown for the background's answer: the send error when the
      platform reports one, otherwise a non-empty response, otherwise the
      unknown error. */
  function ResponseText(response: Option<string>, lastError: Option<string>): (shown: string)
    ensures lastError.Some? ==> shown == SendErrorPrefix + lastError.value
    ensures lastError.None? && response.Some? && response.value != "" ==> shown == response.value
    ensures lastError.None? && (response.None? || response.value == "") ==> shown == UnknownError
    ensures shown != ""
  {
    if lastError.Some? then SendErrorPrefix + lastError.value
    else if response.Some? && response.value != "" then response.value
    else UnknownError
  }

  /** The `sendMessage` callback: the loading tooltip gives way to the
      answer's text. `response` is `None` when the answer is not a
      string. */
  method OnResponse(overlay: Overlay, response: Option<string>, lastError: Option<string>)
    modifies overlay
    ensures overlay.summaryTooltip == Some(Summary(ResponseText(response, lastError)))
    ensures overlay.summarizeBtn == old(overlay.summarizeBtn)
  {
    if lastError.Some? {
      overlay.ShowTooltip(Summary(SendErrorPrefix + lastError.value));
      return;
    }
    if response.Some? && response.value != "" {
      overlay.ShowTooltip(Summary(response.value));
    } else {
      overlay.ShowTooltip(Summary(UnknownError));
    }
  }
}
