/** The TypeScript content script (src/content/content.ts): the settings it
    reads before offering the button, and its selection handler. The
    listener, the article text, the placement and the button click are those
    of the `Page` module, which both sanitising content scripts share. */
module ContentTs {
  import opened Common
  import opened JsString
  import opened Storage
  import opened Page

  /** `isTooltipEnabled()`: on unless the stored general settings turn it
      off; a rejected read leaves it on. */
  function TooltipEnabled(store: SyncStore): (enabled: bool)
    reads store
    ensures !enabled <==>
      store.Get("generalSettings").Ok? && store.Get("generalSettings").value.Some?
      && store.Get("generalSettings").value.value.GeneralValue?
      && !store.Get("generalSettings").value.value.general.enableTooltip
  {
    match store.Get("generalSettings")
    case Err(_) => true
    case Ok(None) => true
    case Ok(Some(v)) => !(v.GeneralValue? && !v.general.enableTooltip)
  }

  /** `isDarkMode()`: the stored theme "dark", or "auto" while the system
      prefers a dark scheme (`prefersDark`); a missing or empty theme,
      another theme and a rejected read all mean light. */
  function DarkMode(store: SyncStore, prefersDark: bool): (dark: bool)
    reads store
    ensures dark <==>
      store.Get("generalSettings").Ok? && store.Get("generalSettings").value.Some?
      && store.Get("generalSettings").value.value.GeneralValue?
      && (store.Get("generalSettings").value.value.general.theme == "dark"
          || (store.Get("generalSettings").value.value.general.theme == "auto" && prefersDark))
  {
    match store.Get("generalSettings")
    case Err(_) => false
    case Ok(None) => false
    case Ok(Some(v)) =>
      if !v.GeneralValue? || v.general.theme == "" then false
      else if v.general.theme == "dark" then true
      else if v.general.theme == "auto" then prefersDark
      else false
  }

  /** The `mouseup` handler. A release on the button itself changes
      nothing; with the tooltip setting off the button goes away; otherwise
      a trimmed selection of at least ten characters gets a button placed by
      `ensureInViewport`, and a shorter one removes it. The button is
      measured before it is attached to the page, where its offset size is
      zero, so it is placed as an element of size zero. */
  method OnMouseUp(overlay: Overlay, onButton: bool, store: SyncStore, selection: string,
                   rect: Rect, view: Viewport)
    modifies overlay
    ensures onButton ==> overlay.summarizeBtn == old(overlay.summarizeBtn)
    ensures !onButton && !TooltipEnabled(store) ==> overlay.summarizeBtn.None?
    ensures !onButton && TooltipEnabled(store) ==>
      (overlay.summarizeBtn.Some? <==> |Trim(selection)| >= 10)
    ensures !onButton && overlay.summarizeBtn.Some? ==>
      overlay.summarizeBtn == Some(Button(EnsureInViewport(rect, view, 0, 0), Trim(selection)))
    ensures overlay.summaryTooltip == old(overlay.summaryTooltip)
  {
    if onButton {
      return;
    }
    var tooltipEnabled := TooltipEnabled(store);
    if !tooltipEnabled {
      overlay.RemoveButton();
      return;
    }
    var selectedText := Trim(selection);
    if selectedText != "" && |selectedText| >= 10 {
      overlay.ShowButton(EnsureInViewport(rect, view, 0, 0), selectedText);
    } else {
      overlay.RemoveButton();
    }
  }

  /** A button placed by the handler keeps ten pixels from the right edge
      of the viewport, and ten from the left one whenever the viewport is
      at least twenty pixels wide. */
  lemma ButtonInViewport(rect: Rect, view: Viewport)
    ensures EnsureInViewport(rect, view, 0, 0).left <= view.width - 10
    ensures view.width >= 20 ==> EnsureInViewport(rect, view, 0, 0).left >= 10
  {
  }
}
