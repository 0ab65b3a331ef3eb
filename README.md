# Hybrid text input and responsive popup layout, in Dafny

This project models the core of an event-invitation app that draws its scene
on a canvas. The core has two parts:

- **Text entry.** A text-entry widget (`TextInput`) lives inside the canvas.
  On a touch device it edits through one shared native input element laid
  over the canvas (`DomTextInput`). Elsewhere it captures keys from the window
  itself.
- **Popup layout.** The modal popups lay themselves out afresh on every
  viewport change. `BasePopup` clamps and centres the panel.
  `GiftSuggestionPopup` sizes its image and PIX sections, and places the QR
  slot beside or above its labels.

Modules, from the leaves up:

- `Optional`: `Option`, the stand-in for `undefined`/`null`, with `??` as `GetOr`.
- `JsText`: `String.prototype.trim`, with the ECMAScript white-space set.
- `Box`: the rounded box primitive. It reports, as `boxWidth`/`boxHeight`, the
  size it was last given.
- `DomInput`: the class `DomTextInput`, a state machine over `visible`,
  `persistent` and a one-shot submit callback.
  - The callback is identified by its owner. `Hide` returns the call that is
    due instead of making it, and the caller makes it afterwards. So the
    callback runs after the callback slot and the visibility flag have been
    cleared, as in the source.
- `InputWidget`:
  - Coordinate bridge: render space to CSS pixels.
  - Label, caret and line-editing functions.
  - The class `TextInput`.
  - The class `FocusRegistry`. It holds the source's two statics (the focused
    widget and the shared overlay) and the running interval timers.
- `FocusFlows`: two-step focus and overlay interactions.
- `Popups`: the panel clamp as pure functions, and the class `BasePopup`.
- `GiftPopup`:
  - The gift popup's layout as a pure function `GiftLayoutFor`.
  - The class `GiftSuggestionPopup`, whose `Resize` is proved to produce
    exactly that layout.

Facts proved about the layout:

- The PIX labels stack below the QR slot exactly when the panel is narrower
  than 600 (content column narrower than 520).
- The image slot never exceeds 184, so its 200 cap never applies.
- The gift text's 200-pixel minimum wrap runs past the section's right
  padding exactly when the content column is narrower than 5096/11.

Numbers:

- Viewport and design sizes are `int`. Every other length is `real`.
- The 0.05, 0.45 and 0.4 factors are exact.
- `Math.floor` is `.Floor`, and `Math.round(x)` is `floor(x + 1/2)`.

## Model

| member | source | states |
|---|---|---|
| JsText.Trim | src/app/ui/DomTextInput.ts:101 | the trimmed text neither starts nor ends with white space and is no longer than the input |
| JsText.TrimKeepsInfix | src/app/ui/DomTextInput.ts:101 | trim keeps one contiguous infix and drops only white space before and after it |
| JsText.TrimIdempotent | src/app/ui/DomTextInput.ts:101 | trimming twice equals trimming once |
| JsText.TrimEmptyIff | src/app/ui/DomTextInput.ts:101 | a value trims to "" exactly when it is all white space |
| DomInput.FloorAtLeast | src/app/ui/DomTextInput.ts:121 | `max(lo, floor(v))` is at least `lo` and is the floor of `v` whenever `v >= lo` |
| DomInput.ShownWidth | src/app/ui/DomTextInput.ts:58 | a shown field is at least 160 wide: 280 when no width is given, exactly 160 for a given width under 160, and the floor of a given width of 160 or more |
| DomInput.CenteredStart | src/app/ui/DomTextInput.ts:65-66 | the floored start edge puts the field's centre at most one pixel before the requested centre |
| DomInput.TypeOrText | src/app/ui/DomTextInput.ts:62-63 | the result is never empty: an absent or empty type gives exactly "text", and a non-empty one is kept |
| DomInput.DomTextInput.constructor | src/app/ui/DomTextInput.ts:19-37 | a new field is attached, hidden, of type text, with no callback |
| DomInput.DomTextInput.ParsedWidth | src/app/ui/DomTextInput.ts:89 | reposition reads back the style width, or 280 when it is unset or zero |
| DomInput.DomTextInput.Place | src/app/ui/DomTextInput.ts:58-66 | show and mount give the same geometry: width from ShownWidth, edges centring the field on (x, y) |
| DomInput.DomTextInput.Show | src/app/ui/DomTextInput.ts:55-71 | a transient, visible, displayed field with the new callback, texts, type, input mode and geometry |
| DomInput.DomTextInput.Mount | src/app/ui/DomTextInput.ts:74-85 | a persistent, visible field with the same geometry as show; callback, type and input mode are untouched |
| DomInput.DomTextInput.Reposition | src/app/ui/DomTextInput.ts:87-93 | a hidden field is unchanged; a visible one is re-centred at its parsed width, and nothing else changes |
| DomInput.DomTextInput.Hide | src/app/ui/DomTextInput.ts:95-102 | a hidden field is unchanged and owes nothing; otherwise slot and flag are cleared and the due call is the old callback with the trimmed value exactly when submitting |
| DomInput.DomTextInput.OnKeyDown | src/app/ui/DomTextInput.ts:39-48 | on a shown transient field Enter and Escape hide it (not visible, not displayed, no callback), Enter owing the old callback with the trimmed value and Escape nothing; other keys and a persistent field change nothing; value, placeholder, type, input mode, style and attachment are kept |
| DomInput.DomTextInput.OnBlur | src/app/ui/DomTextInput.ts:49-52 | losing focus hides a shown transient field (not visible, not displayed) and owes its callback with the trimmed value; a persistent field is left alone; value, placeholder, type, input mode, style and attachment are kept |
| DomInput.DomTextInput.IsVisible | src/app/ui/DomTextInput.ts:104-106 | reports the visibility flag |
| DomInput.DomTextInput.SetValue | src/app/ui/DomTextInput.ts:108-110 | the field's text becomes `v` |
| DomInput.DomTextInput.GetValue | src/app/ui/DomTextInput.ts:112-114 | returns the field's text |
| DomInput.DomTextInput.SetPlaceholder | src/app/ui/DomTextInput.ts:116-118 | the placeholder becomes `p` |
| DomInput.DomTextInput.SetWidth | src/app/ui/DomTextInput.ts:120-123 | the style width becomes `max(120, floor(w))`, visible or not |
| DomInput.DomTextInput.Destroy | src/app/ui/DomTextInput.ts:125-129 | detached, not visible, no pending callback |
| DomInput.HideTwice | src/app/ui/DomTextInput.ts:95-101 | after one hide a second hide owes no call, so a callback runs at most once per show |
| InputWidget.OverlayWidth | src/app/ui/TextInput.ts:128 | the overlay width is the box's on-screen width, but never below 160 |
| InputWidget.OverlayOffsetLinearX | src/app/ui/TextInput.ts:124-126 | the overlay's horizontal offset from the canvas edge scales linearly with the canvas's on-screen width |
| InputWidget.OverlayOffsetLinearY | src/app/ui/TextInput.ts:125-127 | the same vertically |
| InputWidget.OverlayFollowsCanvas | src/app/ui/TextInput.ts:215-216 | moving the canvas on screen by (dx, dy) moves the overlay's centre by exactly (dx, dy) |
| InputWidget.DropLast | src/app/ui/TextInput.ts:170 | `slice(0, -1)` drops exactly the last character and leaves "" as it is |
| InputWidget.AppendIffFits | src/app/ui/TextInput.ts:189-202 | a printable key is appended if and only if the text with it measures under the room; otherwise nothing changes |
| InputWidget.EditTouchesOnlyTail | src/app/ui/TextInput.ts:167-204 | any editing key drops one last character, appends one, or changes nothing |
| InputWidget.EditingKeepsTextInside | src/app/ui/TextInput.ts:191-198 | with widths that grow with the text, a value that fits keeps fitting after any key sequence |
| InputWidget.TextInput.constructor | src/app/ui/TextInput.ts:31-65 | a 300x80 default box, empty value, placeholder label, unfocused, registered with the registry |
| InputWidget.TextInput.UpdateLabel | src/app/ui/TextInput.ts:81-90 | the label shows the placeholder muted for an empty value and the value dark otherwise; the caret then stands 2 after the measured text the label displays, or at the label's start whatever the placeholder |
| InputWidget.TextInput.UpdateCaretPosition | src/app/ui/TextInput.ts:252-260 | for a non-empty value the caret stands 2 after the label's measured text, whatever the label holds; for an empty value it stands 2 after the label's start |
| InputWidget.TextInput.SetValue | src/app/ui/TextInput.ts:67-70 | the value becomes `v` and the label and caret follow it |
| InputWidget.TextInput.GetValue | src/app/ui/TextInput.ts:72-74 | returns the value |
| InputWidget.TextInput.SetPlaceholder | src/app/ui/TextInput.ts:76-79 | the placeholder becomes `p` and shows when the value is empty |
| InputWidget.TextInput.StartCaret | src/app/ui/TextInput.ts:235-242 | the caret shows, any earlier interval is cleared, and a fresh interval runs |
| InputWidget.TextInput.StopCaret | src/app/ui/TextInput.ts:244-250 | the interval is cleared and the caret hidden |
| InputWidget.TextInput.ShowDomOverlay | src/app/ui/TextInput.ts:207-233 | when the overlay exists, it shows transiently over the widget's on-screen centre with its value, placeholder and callback |
| InputWidget.TextInput.Focus | src/app/ui/TextInput.ts:93-115 | a focused widget is unchanged; otherwise the previous holder is fully blurred first, keeping its value, placeholder and label, then this one holds focus, blinks, and captures through the overlay (created on first need) or the window; value, label and caret are kept, and every widget keeps its label in sync |
| InputWidget.TextInput.Activate | src/app/ui/TextInput.ts:99-114 | the focus sequence once the slot is free keeps the registry invariant (one focused widget, one timer, overlay callback owned by it, labels in sync) and leaves value, label and caret as they were |
| InputWidget.TextInput.ActivateWithKeys | src/app/ui/TextInput.ts:99-114 | without touch: this widget holds focus, blinks with a fresh timer and captures keys from the window |
| InputWidget.TextInput.ActivateThroughOverlay | src/app/ui/TextInput.ts:99-110 | with touch: this widget holds focus, blinks with a fresh timer, and the overlay is shown over it with its callback while the viewport is tracked |
| InputWidget.TextInput.OpenOverlay | src/app/ui/TextInput.ts:106-108 | the overlay exists afterwards (created fresh only if absent) and is shown over the widget's centre with its value, placeholder and callback |
| InputWidget.TextInput.RepositionOverlay | src/app/ui/TextInput.ts:118-131 | only while focused through an existing overlay: width reset to `max(120, floor(...))`, and the position re-centred if the overlay is shown |
| InputWidget.TextInput.Blur | src/app/ui/TextInput.ts:134-150 | an unfocused widget is unchanged; otherwise listeners and timer are released, a shown overlay is hidden without a call, and the slot is freed |
| InputWidget.TextInput.Destroy | src/app/ui/TextInput.ts:152-155 | destroying blurs first: focus and the caret timer are released, an overlay the widget owned is hidden with no callback pending, the overlay object is kept, and value, placeholder and label are unchanged; an unfocused widget leaves the registry alone |
| InputWidget.TextInput.OnKeyDown | src/app/ui/TextInput.ts:157-205 | only while focused: Enter and Escape blur and leave value and caret alone; every other key edits as EditedValue says with room `boxWidth - 32`, leaves focus and the overlay alone, puts the caret after the shown text for any printable key, and leaves the caret alone for a key that edits nothing; placeholder, capture branch and `destroyed` are kept and the label stays in sync |
| InputWidget.TextInput.EditWhileFocused | src/app/ui/TextInput.ts:167-204 | an editing key reaching the focused widget keeps the registry invariant and changes value and caret as EditTail does, with focus untouched |
| InputWidget.TextInput.EditTail | src/app/ui/TextInput.ts:167-204 | Backspace and Delete drop the last character, modifier combos are ignored, a printable key is appended only if it fits; after any printable key, accepted or not, the label is re-derived and the caret follows the value, and a key that edits nothing leaves label and caret as they were |
| InputWidget.TextInput.SubmitFromOverlay | src/app/ui/TextInput.ts:227-231 | the submitted value becomes the widget's value, the label shows it (or the unchanged placeholder) in the matching fill, the caret follows, and the widget blurs, keeping its capture branch and `destroyed` |
| InputWidget.FocusRegistry.constructor | src/app/ui/TextInput.ts:18-19 | no widget focused, no overlay yet, no timers |
| InputWidget.FocusRegistry.RunDue | src/app/ui/DomTextInput.ts:101 | the due callback, if any, runs after the overlay's state is cleared and leaves its owner holding the value with its placeholder, unfocused; with nothing due nothing changes |
| InputWidget.FocusRegistry.OverlayKeyDown | src/app/ui/DomTextInput.ts:39-48 | Enter hands the trimmed text to the focused widget, which keeps its placeholder, and frees the slot; Escape hides the overlay with no callback and its text kept, and changes neither the registry nor the focused widget, which stays focused |
| InputWidget.FocusRegistry.OverlayCancel | src/app/ui/TextInput.ts:162-165 | Escape handled as the window key listener handles it: the overlay hides and the focused widget blurs, keeping its value and placeholder |
| InputWidget.FocusRegistry.OverlayBlur | src/app/ui/DomTextInput.ts:49-52 | losing native focus submits like Enter: the former holder gets the trimmed text, keeps its placeholder and is unfocused; a hidden overlay changes nothing |
| FocusFlows.EscapeThenTap | src/app/ui/TextInput.ts:93-94 | after Escape in the overlay, a tap on the same widget leaves it focused with the overlay hidden |
| FocusFlows.CancelThenTap | src/app/ui/TextInput.ts:93-115 | with OverlayCancel, the tap reopens the overlay for the widget with its value |
| FocusFlows.FocusTransfer | src/app/ui/TextInput.ts:95-101 | when focus passes from one widget to another, the first is unfocused and keeps its value, placeholder and a label in sync with them |
| FocusFlows.FocusThenType | src/app/ui/TextInput.ts:157-204 | without touch, a printable key typed right after focusing edits the value as EditedValue says and the label follows |
| Popups.Round | src/app/popups/BasePopup.ts:73 | `Math.round`: within one half of the input |
| Popups.Margin | src/app/popups/BasePopup.ts:73-74 | the margin is 5% of the extent rounded, but at least 16 |
| Popups.MaxPanelWidth | src/app/popups/BasePopup.ts:75 | the widest panel is the viewport less both margins, but at least 240 |
| Popups.MaxPanelHeight | src/app/popups/BasePopup.ts:76 | the tallest panel is the viewport less both margins, but at least 200 |
| Popups.Clamp | src/app/popups/BasePopup.ts:77-78 | the panel extent is the design extent or the limit, whichever is smaller |
| Popups.LayoutCoversAndCentres | src/app/popups/BasePopup.ts:67-84 | the background is exactly the viewport, the panel is centred, and its size is min(design, max) |
| Popups.PanelKeepsMargins | src/app/popups/BasePopup.ts:72-83 | once the viewport exceeds the floor, the centred panel leaves at least the margin on every side |
| Popups.LargeDesignFillsViewport | src/app/popups/BasePopup.ts:75-78 | a design larger than the viewport allows fills it up to the margins exactly |
| Popups.BasePopup.constructor | src/app/popups/BasePopup.ts:33-64 | absent options default to a 350x300 panel, font size 28, empty title; title at -80, "OK" button at 70 |
| Popups.BasePopup.Resize | src/app/popups/BasePopup.ts:67-84 | the new layout is LayoutFor(design, viewport) alone, so a repeated resize with the same viewport changes nothing |
| GiftPopup.ContentWidth | src/app/popups/GiftSuggestion.Popup.ts:124 | the content column is the panel width less 80, but at least 320 |
| GiftPopup.ImageSlotSide | src/app/popups/GiftSuggestion.Popup.ts:136-143 | the image slot's side is 45% of the padded width clamped to [120, 184]: 120 at or below the floor, 184 at or above the cap, the 45% in between |
| GiftPopup.QrSlotSide | src/app/popups/GiftSuggestion.Popup.ts:176-183 | the QR slot's side is 40% of the padded width clamped to [120, 180]: 120 at or below the floor, 180 at or above the cap, the 40% in between |
| GiftPopup.FitScale | src/app/popups/GiftSuggestion.Popup.ts:155-156 | the scale never enlarges, fits both texture sides into the square, and is the largest such scale up to 1 |
| GiftPopup.Fitted | src/app/popups/GiftSuggestion.Popup.ts:152-160 | fitting keeps the sprite and its texture; a texture with a non-positive side leaves the sprite as it was, and any other gets exactly FitScale |
| GiftPopup.StackedIffNarrow | src/app/popups/GiftSuggestion.Popup.ts:186-188 | the PIX labels stack exactly when the content column is narrower than 520 |
| GiftPopup.StackedIffPanelNarrow | src/app/popups/GiftSuggestion.Popup.ts:123-188 | the PIX labels stack exactly when the panel is narrower than 600 |
| GiftPopup.SectionsStackDown | src/app/popups/GiftSuggestion.Popup.ts:125-168 | the column starts 140 below the panel top, both sections are the column's width, and the PIX section starts 28 below the image section |
| GiftPopup.ImageSectionHoldsSlot | src/app/popups/GiftSuggestion.Popup.ts:136-165 | the square slot keeps the padding, the gift text starts 24 right of it, and its wrap is at least 200 |
| GiftPopup.GiftTextInsideIff | src/app/popups/GiftSuggestion.Popup.ts:145-165 | the gift text's wrap box ends inside the right padding exactly when the column is at least 5096/11 wide |
| GiftPopup.PixSectionHoldsContents | src/app/popups/GiftSuggestion.Popup.ts:186-231 | in both arrangements slot and labels keep the padding, the labels end at the right padding, the note is 12 below the key, and nothing overlaps the slot |
| GiftPopup.FittedNeverEnlarges | src/app/popups/GiftSuggestion.Popup.ts:152-158 | a fitted sprite is never enlarged and fits its square |
| GiftPopup.GiftSuggestionPopup.constructor | src/app/popups/GiftSuggestion.Popup.ts:21-118 | an 880x780 design, title at -330, "Fechar" button at 312, sections at their initial sizes and wraps, no sprites |
| GiftPopup.GiftSuggestionPopup.LayOutImage | src/app/popups/GiftSuggestion.Popup.ts:132-165 | the image section matches ImageLayoutFor, the placeholder shows iff no picture, and the picture is fitted |
| GiftPopup.GiftSuggestionPopup.LayOutPix | src/app/popups/GiftSuggestion.Popup.ts:170-244 | the PIX section matches PixLayoutFor, the placeholder shows iff no QR code, and the QR code is fitted |
| GiftPopup.GiftSuggestionPopup.ArrangeStacked | src/app/popups/GiftSuggestion.Popup.ts:191-209 | the stacked arrangement matches PixLayoutFor |
| GiftPopup.GiftSuggestionPopup.ArrangeBeside | src/app/popups/GiftSuggestion.Popup.ts:210-232 | the side-by-side arrangement matches PixLayoutFor |
| GiftPopup.GiftSuggestionPopup.Resize | src/app/popups/GiftSuggestion.Popup.ts:120-245 | the base layout is clamped as BasePopup's, the sections match GiftLayoutFor for the new panel size, and the arrangement is decided afresh |
| GiftPopup.GiftSuggestionPopup.SetGiftImage | src/app/popups/GiftSuggestion.Popup.ts:247-256 | with a parent: a new unscaled picture replaces the old one, is fitted by the re-layout, and hides the placeholder; with no parent the call throws after the picture is in place, leaving it unscaled and the layout and placeholder as they were |
| GiftPopup.GiftSuggestionPopup.SetPixQr | src/app/popups/GiftSuggestion.Popup.ts:258-267 | the same for the QR code, including the throw when there is no parent |
| GiftPopup.GiftSuggestionPopup.SetPixKey | src/app/popups/GiftSuggestion.Popup.ts:269-271 | the key label reads "Chave PIX: " followed by the key |

## Left out

- Browser and rendering I/O is not modelled:
  - DOM styling strings, listener registration and removal (these become the flags `keyCapture` and `viewportTracking`);
  - `input.focus()`/`select()` and `preventDefault`;
  - the `Graphics` outline and the caret drawing (`drawCaret`);
  - the caret's blink toggling inside its interval.
- `getBoundingClientRect`, `getBounds`, the renderer size and touch detection are parameters (`Frame`, `Bounds`, `isTouch`).
- Label width and height measurement are function-valued parameters (`textWidth`, `keyHeight`, `noteHeight`).
- The parent's size passed by `setGiftImage`/`setPixQr` is a parameter, `None` when the popup has no parent.
- SetGiftImage, SetPixQr: the parent's size is taken in whole pixels, as `Resize` takes the viewport; the source passes the parent container's bounds, which may be fractional. A thrown `TypeError` is the result `ok == false`.
- `BasePopup.show`/`hide` are not modelled: they are animations, blur filters and navigation.
- Positions that never change are not modelled: the label's y, the gift text's y, the slot labels' and sprites' (0, 0), and the sprites' anchors.
- The dim background's size before the first resize is `None`: it is the stock texture's size.
- RoundedBox.ts is not part of this model. The box stores the size it is given, with no clamping of negative sizes, and its redraw is not modelled.
- Strings are sequences of code points, not UTF-16 units, so `length === 1` on a key means one code point.
- InputWidget.TextInput.Focus requires a renderer with a non-zero size on the touch branch. The code divides by the renderer size without a guard: with a zero size it does not fail, it writes NaN or Infinity pixel styles into the overlay. The model excludes that case with a `requires` and does not describe those styles.
- InputWidget.TextInput.RepositionOverlay has the same `requires` when it acts, for the same reason.
- GiftPopup.PixSectionHoldsContents assumes label heights are never negative.
- InputWidget.EditingKeepsTextInside assumes measured widths never shrink when a character is appended.

## Findings

| source | as written | input that shows it | evidently intended | confidence | as-written member | corrected member |
|---|---|---|---|---|---|---|
| src/app/ui/DomTextInput.ts:44-46 | Escape in the native overlay only hides it; the focused TextInput is never blurred, and a later tap on it returns early at src/app/ui/TextInput.ts:94 | a touch device with a widget focused through the shown overlay: press Escape, then tap the same widget | Escape cancels the edit and blurs the widget, as the window key listener does at src/app/ui/TextInput.ts:162-165, so that the next tap reopens the overlay | medium; not executed | FocusFlows.EscapeThenTap | FocusFlows.CancelThenTap |
