/** The first content script (content.js): the unsanitised article text,
    its listener, and a selection handler with no length threshold. */
module ContentLegacy {
  import opened Common
  import opened JsString
  import opened Messaging
  import opened Page

  /** `getArticleText()` with no sanitising and no threshold: the article,
      else the paragraphs joined by newlines, else `main`, else the body;
      `None` when it falls through to a missing body, where reading the
      text throws. */
  function RawArticleText(doc: Document): (text: Option<string>)
    ensures doc.article.Some? ==> text == doc.article
    ensures doc.article.None? && doc.paragraphs != [] ==> text == Some(Join(doc.paragraphs, "\n"))
    ensures doc.article.None? && doc.paragraphs == [] ==>
      text == if doc.main.Some? then doc.main else doc.body
  {
    if doc.article.Some? then doc.article
    else if doc.paragraphs != [] then Some(Join(doc.paragraphs, "\n"))
    else if doc.main.Some? then doc.main
    else doc.body
  }

  /** Whenever the script finds an article or (with no paragraphs) `main`,
      src/content.js, which reads the same `innerText`, returns that text
      with angle brackets removed and the ends trimmed. This does not carry
      over to src/content/content.ts, which reads `textContent`. */
  lemma SanitisedAgrees(doc: Document)
    requires RawArticleText(doc).Some?
    requires doc.article.Some? || (doc.paragraphs == [] && doc.main.Some?)
    ensures ArticleText(doc) == SanitizeText(RawArticleText(doc).value)
  {
  }

  /** The listener: an article-text request is answered and keeps the
      channel open, unless reading the body throws, which leaves it
      unanswered; a "show-summary" message shows the summary as a tooltip
      (and none when nothing is selected); anything else, the background's
      "show-summary-tooltip" pushes included, is ignored. */
  method OnMessage(overlay: Overlay, req: Request, doc: Document, hasRange: bool)
    returns (keepOpen: bool, replies: seq<Reply>)
    modifies overlay
    ensures req.kind == "GET_ARTICLE_TEXT" && RawArticleText(doc).Some? ==>
      keepOpen && replies == [TextReply(RawArticleText(doc).value)]
    ensures req.kind != "GET_ARTICLE_TEXT" || RawArticleText(doc).None? ==> !keepOpen && replies == []
    ensures req.kind == "show-summary" ==>
      overlay.summaryTooltip == (if hasRange then Some(Summary(req.summary)) else None)
    ensures req.kind != "show-summary" ==> overlay.summaryTooltip == old(overlay.summaryTooltip)
    ensures overlay.summarizeBtn == old(overlay.summarizeBtn)
  {
    if req.kind == "GET_ARTICLE_TEXT" {
      var text := RawArticleText(doc);
      if text.None? {
        return false, [];
      }
      return true, [TextReply(text.value)];
    }
    if req.kind == "show-summary" {
      overlay.RemoveTooltip();
      if hasRange {
        overlay.ShowTooltip(Summary(req.summary));
      }
    }
    return false, [];
  }

  /** The `mouseup` handler: any selection that is not blank after trimming
      gets a button at the selection's bottom-right corner; a blank one
      removes it. */
  method OnMouseUp(overlay: Overlay, selection: string, rect: Rect, view: Viewport)
    modifies overlay
    ensures overlay.summarizeBtn.Some? <==> Trim(selection) != ""
    ensures overlay.summarizeBtn.Some? ==>
      overlay.summarizeBtn
        == Some(Button(Position(rect.bottom + view.scrollY, rect.right + view.scrollX), Trim(selection)))
    ensures overlay.summaryTooltip == old(overlay.summaryTooltip)
  {
    var selectedText := Trim(selection);
    if selectedText != "" {
      overlay.ShowButton(Position(rect.bottom + view.scrollY, rect.right + view.scrollX), selectedText);
    } else {
      overlay.RemoveButton();
    }
  }

  /** A click on the button: the request with the selection, with no
      tooltip asked for, and the button removed. */
  method OnButtonClick(overlay: Overlay) returns (sent: Message)
    requires overlay.summarizeBtn.Some?
    modifies overlay
    ensures sent == Message(Some("summarize-selection"), None, Some(old(overlay.summarizeBtn).value.selectedText),
                            None, false, None)
    ensures IsSummariseRequest(sent) && !sent.showTooltip
    ensures overlay.summarizeBtn.None? && overlay.summaryTooltip == old(overlay.summaryTooltip)
  {
    sent := Message(Some("summarize-selection"), None, Some(overlay.summarizeBtn.value.selectedText),
                    None, false, None);
    overlay.RemoveButton();
  }
}
