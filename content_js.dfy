/** The JavaScript content script (src/content.js): its selection handler.
    The listener, the article text, the placement and the button click are
    those of the `Page` module; unlike the TypeScript version it offers the
    button without reading any setting. */
module ContentJs {
  import opened Common
  import opened JsString
  import opened Page

  /** The `mouseup` handler: a release on the button changes nothing; a
      trimmed selection of at least ten characters gets a button placed by
      `ensureInViewport` (as an element of size zero, since it is measured
      before it is attached), and a shorter one removes it. */
  method OnMouseUp(overlay: Overlay, onButton: bool, selection: string, rect: Rect, view: Viewport)
    modifies overlay
    ensures onButton ==> overlay.summarizeBtn == old(overlay.summarizeBtn)
    ensures !onButton ==> (overlay.summarizeBtn.Some? <==> |Trim(selection)| >= 10)
    ensures !onButton && overlay.summarizeBtn.Some? ==>
      overlay.summarizeBtn == Some(Button(EnsureInViewport(rect, view, 0, 0), Trim(selection)))
    ensures overlay.summaryTooltip == old(overlay.summaryTooltip)
  {
    if onButton {
      return;
    }
    var selectedText := Trim(selection);
    if selectedText != "" && |selectedText| >= 10 {
      overlay.ShowButton(EnsureInViewport(rect, view, 0, 0), selectedText);
    } else {
      overlay.RemoveButton();
    }
  }
}
