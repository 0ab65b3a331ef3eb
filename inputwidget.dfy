/**
 * The canvas text-input widget (`TextInput`) and the two process-wide slots
 * it shares with every other widget: the focused widget and the one native
 * overlay. The slots live in an explicit `FocusRegistry` object handed to
 * every operation, together with the browser's interval timers, which the
 * caret blink uses.
 */
module InputWidget {
  import opened Optional
  import opened Box
  import opened DomInput

  // ---------------------------------------------------------------------
  // Render space to CSS space

  /**
   * The canvas's on-screen rectangle in CSS pixels (`getBoundingClientRect`)
   * and the renderer's size in render pixels.
   */
  datatype Frame = Frame(left: real, top: real, width: real, height: real,
                         renderWidth: real, renderHeight: real)

  /** A rectangle in render space: the widget's `getBounds()`. */
  datatype Bounds = Bounds(x: real, y: real, width: real, height: real)

  /** The renderer has a size, so the render-to-CSS scale factors exist. */
  predicate NonDegenerate(f: Frame)
  {
    f.renderWidth > 0.0 && f.renderHeight > 0.0
  }

  function ScaleX(f: Frame): real
    requires f.renderWidth > 0.0
  {
    f.width / f.renderWidth
  }

  function ScaleY(f: Frame): real
    requires f.renderHeight > 0.0
  {
    f.height / f.renderHeight
  }

  /** CSS x of the centre of render rectangle `b`. */
  function OverlayCenterX(f: Frame, b: Bounds): real
    requires f.renderWidth > 0.0
  {
    f.left + (b.x + b.width * 0.5) * ScaleX(f)
  }

  /** CSS y of the centre of render rectangle `b`. */
  function OverlayCenterY(f: Frame, b: Bounds): real
    requires f.renderHeight > 0.0
  {
    f.top + (b.y + b.height * 0.5) * ScaleY(f)
  }

  /** Minimum width asked of the overlay, in CSS pixels. */
  const MinOverlayWidth: real := 160.0

  /** CSS width asked of the overlay: the box's width on screen, but at least 160. */
  function OverlayWidth(f: Frame, boxWidth: real): (r: real)
    requires f.renderWidth > 0.0
    ensures r >= MinOverlayWidth && r >= boxWidth * ScaleX(f)
    ensures r == MinOverlayWidth || r == boxWidth * ScaleX(f)
  {
    if boxWidth * ScaleX(f) >= MinOverlayWidth then boxWidth * ScaleX(f) else MinOverlayWidth
  }

  /**
   * The overlay's horizontal offset from the canvas's left edge is linear in
   * the horizontal scale: stretching the canvas on screen by `k` stretches
   * the offset by `k`.
   */
  lemma OverlayOffsetLinearX(f: Frame, b: Bounds, k: real)
    requires f.renderWidth > 0.0
    ensures OverlayCenterX(f.(width := k * f.width), b) - f.left == k * (OverlayCenterX(f, b) - f.left)
  {
    var c := b.x + b.width * 0.5;
    calc {
      OverlayCenterX(f.(width := k * f.width), b) - f.left;
      c * ((k * f.width) / f.renderWidth);
      { assert (k * f.width) / f.renderWidth == k * (f.width / f.renderWidth); }
      k * (c * (f.width / f.renderWidth));
    }
  }

  /** The same for the vertical offset and the vertical scale. */
  lemma OverlayOffsetLinearY(f: Frame, b: Bounds, k: real)
    requires f.renderHeight > 0.0
    ensures OverlayCenterY(f.(height := k * f.height), b) - f.top == k * (OverlayCenterY(f, b) - f.top)
  {
    var c := b.y + b.height * 0.5;
    calc {
      OverlayCenterY(f.(height := k * f.height), b) - f.top;
      c * ((k * f.height) / f.renderHeight);
      { assert (k * f.height) / f.renderHeight == k * (f.height / f.renderHeight); }
      k * (c * (f.height / f.renderHeight));
    }
  }

  /** Scrolling or moving the canvas by (dx, dy) moves the overlay's centre by exactly (dx, dy). */
  lemma OverlayFollowsCanvas(f: Frame, b: Bounds, dx: real, dy: real)
    requires NonDegenerate(f)
    ensures OverlayCenterX(f.(left := f.left + dx), b) == OverlayCenterX(f, b) + dx
    ensures OverlayCenterY(f.(top := f.top + dy), b) == OverlayCenterY(f, b) + dy
  {
  }

  // ---------------------------------------------------------------------
  // Label, caret and line editing

  /** Label colours: muted for the placeholder, dark for a value. */
  const PlaceholderFill: int := 0x999999
  const ValueFill: int := 0x4a4a4a
  /** Left padding of the label inside the box. */
  const LabelPadding: real := 16.0
  /** Gap between the end of the text and the caret. */
  const CaretGap: real := 2.0
  /** Horizontal padding subtracted from the box width when deciding whether typed text fits. */
  const EditPadding: real := 32.0

  /** Text shown by the label: the placeholder for an empty value, the value otherwise. */
  function LabelText(value: string, placeholder: string): string
  {
    if value == "" then placeholder else value
  }

  function LabelFill(value: string): int
  {
    if value == "" then PlaceholderFill else ValueFill
  }

  /** x of the label's left edge in a box of width `boxWidth` centred on 0. */
  function LabelX(boxWidth: real): real
  {
    -boxWidth * 0.5 + LabelPadding
  }

  /** x of the caret: just after the measured value, or at the label's start when the value is empty. */
  function CaretX(boxWidth: real, value: string, textWidth: string -> real): real
  {
    LabelX(boxWidth) + (if value == "" then 0.0 else textWidth(value)) + CaretGap
  }

  /** A keyboard event as the window listener sees it. */
  datatype KeyEvent = KeyEvent(key: string, ctrlKey: bool, metaKey: bool, altKey: bool)

  /** `s.slice(0, -1)`: the value without its last character; the empty value stays empty. */
  function DropLast(s: string): (r: string)
    ensures s == [] ==> r == []
    ensures s != [] ==> r + [s[|s| - 1]] == s
  {
    if s == [] then s else s[..|s| - 1]
  }

  /** A key that appends itself: one character, no ctrl, meta or alt. */
  predicate IsPrintable(e: KeyEvent)
  {
    |e.key| == 1 && !e.ctrlKey && !e.metaKey && !e.altKey
  }

  /**
   * A key that leaves the value, the label and the caret alone: Backspace or
   * Delete on an empty value, or any other key that is not printable.
   */
  predicate EditsNothing(e: KeyEvent, value: string)
  {
    if e.key == "Backspace" || e.key == "Delete" then value == "" else !IsPrintable(e)
  }

  /**
   * The value after a key the widget edits with (every key but Enter and
   * Escape, which blur): Backspace and Delete both drop the last character,
   * a printable key is appended when the measured text would still be
   * narrower than `room`, and every other key changes nothing.
   */
  function EditedValue(value: string, e: KeyEvent, room: real, textWidth: string -> real): string
  {
    if e.key == "Backspace" || e.key == "Delete" then DropLast(value)
    else if e.ctrlKey || e.metaKey || e.altKey then value
    else if |e.key| == 1 && textWidth(value + e.key) < room then value + e.key
    else value
  }

  /**
   * A printable key is appended if and only if the text with it measures
   * less than `room`; otherwise the value is unchanged.
   */
  lemma AppendIffFits(value: string, e: KeyEvent, room: real, textWidth: string -> real)
    requires IsPrintable(e)
    ensures EditedValue(value, e, room, textWidth) == value + e.key <==> textWidth(value + e.key) < room
    ensures textWidth(value + e.key) >= room ==> EditedValue(value, e, room, textWidth) == value
  {
    if textWidth(value + e.key) >= room {
      assert |value + e.key| == |value| + 1;
    }
  }

  /**
   * Editing only ever touches the tail: the new value is the old one with
   * its last character dropped, or with one character appended, or the old
   * value itself.
   */
  lemma EditTouchesOnlyTail(value: string, e: KeyEvent, room: real, textWidth: string -> real)
    ensures var r := EditedValue(value, e, room, textWidth);
      (r <= value && |value| - |r| <= 1) || (value <= r && |r| - |value| <= 1)
  {
  }

  /** Measured widths grow when a character is added at the end. */
  ghost predicate GrowsWithText(textWidth: string -> real)
  {
    forall s: string, c: char {:trigger textWidth(s + [c])} :: textWidth(s) <= textWidth(s + [c])
  }

  /** The value after a sequence of editing keys. */
  function EditedByKeys(value: string, keys: seq<KeyEvent>, room: real, textWidth: string -> real): string
    decreases |keys|
  {
    if keys == [] then value
    else EditedByKeys(EditedValue(value, keys[0], room, textWidth), keys[1..], room, textWidth)
  }

  /**
   * The implicit maximum length: when measured widths grow with the text,
   * a value whose text fits the box keeps fitting whatever keys are typed.
   */
  lemma {:induction false} EditingKeepsTextInside(value: string, keys: seq<KeyEvent>, room: real,
                                                  textWidth: string -> real)
    requires GrowsWithText(textWidth)
    requires value == "" || textWidth(value) < room
    ensures var r := EditedByKeys(value, keys, room, textWidth); r == "" || textWidth(r) < room
    decreases |keys|
  {
    if keys != [] {
      var next := EditedValue(value, keys[0], room, textWidth);
      if next != "" && next == DropLast(value) {
        assert textWidth(next) <= textWidth(next + [value[|value| - 1]]);
      }
      EditingKeepsTextInside(next, keys[1..], room, textWidth);
    }
  }

  /** What the widget is built with. */
  datatype TextInputOptions = TextInputOptions(width: Option<real>, height: Option<real>,
                                               placeholder: Option<string>)

  const DefaultInputWidth: real := 300.0
  const DefaultInputHeight: real := 80.0

  // ---------------------------------------------------------------------
  // The widget

  class TextInput {
    /** The box the widget is drawn in. */
    const bg: RoundedBox
    /** Measured width of the label showing a text (a foreign text-metrics call). */
    const textWidth: string -> real
    var valueText: string
    var placeholder: string
    var focused: bool
    /** The last focus went through the native overlay (touch device). */
    var usingDom: bool
    /** Handle of the caret's blink interval (`null` in the source is `None`). */
    var caretBlinkId: Option<nat>
    var caretVisible: bool
    var caretX: real
    var labelText: string
    var labelFill: int
    /** The capturing window `keydown` listener is installed. */
    var keyCapture: bool
    /** The window `resize` and `scroll` listeners that reposition the overlay are installed. */
    var viewportTracking: bool
    var destroyed: bool

    /**
     * The caret blinks exactly while focused, the listeners installed match
     * the capture branch taken, and the label shows what the value says.
     */
    ghost predicate Valid()
      reads this
    {
      (caretBlinkId.Some? <==> focused)
      && (!focused ==> !caretVisible)
      && (keyCapture <==> focused && !usingDom)
      && (viewportTracking <==> focused && usingDom)
      && LabelInSync()
    }

    /** The label shows the placeholder, muted, for an empty value and the value otherwise. */
    ghost predicate LabelInSync()
      reads this
    {
      labelText == LabelText(valueText, placeholder) && labelFill == LabelFill(valueText)
    }

    constructor (opts: TextInputOptions, textWidth: string -> real, reg: FocusRegistry)
      requires reg.Valid()
      modifies reg
      ensures Valid() && LabelInSync() && reg.Valid()
      ensures reg.widgets == old(reg.widgets) + {this}
      ensures reg.active == old(reg.active) && reg.dom == old(reg.dom)
      ensures reg.intervals == old(reg.intervals) && reg.nextInterval == old(reg.nextInterval)
      ensures fresh(bg) && bg.boxWidth == opts.width.GetOr(DefaultInputWidth)
      ensures bg.boxHeight == opts.height.GetOr(DefaultInputHeight)
      ensures this.textWidth == textWidth
      ensures valueText == "" && placeholder == opts.placeholder.GetOr("")
      ensures !focused && !usingDom && caretBlinkId == None && !caretVisible && caretX == 0.0
      ensures !keyCapture && !viewportTracking && !destroyed
    {
      bg := new RoundedBox(opts.width.GetOr(DefaultInputWidth), opts.height.GetOr(DefaultInputHeight));
      this.textWidth := textWidth;
      valueText := "";
      placeholder := opts.placeholder.GetOr("");
      focused, usingDom := false, false;
      caretBlinkId, caretVisible, caretX := None, false, 0.0;
      labelText, labelFill := opts.placeholder.GetOr(""), PlaceholderFill;
      keyCapture, viewportTracking, destroyed := false, false, false;
      new;
      reg.widgets := reg.widgets + {this};
    }

    /**
     * Re-derive the label from the value and the placeholder, then the caret:
     * the caret stands `CaretGap` after the text the label now displays, or
     * at the label's start when that text is the placeholder.
     */
    method UpdateLabel()
      modifies this`labelText, this`labelFill, this`caretX
      ensures labelText == LabelText(valueText, placeholder) && labelFill == LabelFill(valueText)
      ensures valueText != "" ==> caretX == LabelX(bg.boxWidth) + textWidth(labelText) + CaretGap
      ensures valueText == "" ==> caretX == LabelX(bg.boxWidth) + CaretGap
      ensures caretX == CaretX(bg.boxWidth, valueText, textWidth)
    {
      if valueText == "" {
        labelFill := PlaceholderFill;
        labelText := placeholder;
      } else {
        labelFill := ValueFill;
        labelText := valueText;
      }
      UpdateCaretPosition();
    }

    /**
     * Put the caret after the label's text, using the label's measured width,
     * whatever text the label holds; an empty value puts it at the label's start.
     */
    method UpdateCaretPosition()
      modifies this`caretX
      ensures valueText != "" ==> caretX == LabelX(bg.boxWidth) + textWidth(labelText) + CaretGap
      ensures valueText == "" ==> caretX == LabelX(bg.boxWidth) + CaretGap
    {
      var contentWidth := if valueText != "" then textWidth(labelText) else 0.0;
      var inputWidth := bg.boxWidth;
      var left := -inputWidth * 0.5 + LabelPadding;
      caretX := left + contentWidth + CaretGap;
    }

    method SetValue(v: string)
      requires Valid()
      modifies this`valueText, this`labelText, this`labelFill, this`caretX
      ensures Valid() && LabelInSync()
      ensures valueText == v && caretX == CaretX(bg.boxWidth, v, textWidth)
    {
      valueText := v;
      UpdateLabel();
    }

    method GetValue() returns (r: string)
      ensures r == valueText
    {
      r := valueText;
    }

    method SetPlaceholder(p: string)
      requires Valid()
      modifies this`placeholder, this`labelText, this`labelFill, this`caretX
      ensures Valid() && LabelInSync()
      ensures placeholder == p && labelText == (if valueText == "" then p else valueText)
    {
      placeholder := p;
      UpdateLabel();
    }

    /** Make the caret visible and start a fresh blink interval, clearing any earlier one. */
    method StartCaret(reg: FocusRegistry)
      modifies this`caretVisible, this`caretBlinkId, reg`intervals, reg`nextInterval
      ensures caretVisible && caretBlinkId == Some(old(reg.nextInterval))
      ensures reg.nextInterval == old(reg.nextInterval) + 1
      ensures reg.intervals ==
        (if old(caretBlinkId).Some? then old(reg.intervals) - {old(caretBlinkId).value} else old(reg.intervals))
        + {old(reg.nextInterval)}
    {
      caretVisible := true;
      if caretBlinkId.Some? {
        reg.intervals := reg.intervals - {caretBlinkId.value};
      }
      caretBlinkId := Some(reg.nextInterval);
      reg.intervals := reg.intervals + {reg.nextInterval};
      reg.nextInterval := reg.nextInterval + 1;
    }

    /** Clear the blink interval, if any, and hide the caret. */
    method StopCaret(reg: FocusRegistry)
      modifies this`caretVisible, this`caretBlinkId, reg`intervals
      ensures !caretVisible && caretBlinkId == None
      ensures reg.intervals ==
        if old(caretBlinkId).Some? then old(reg.intervals) - {old(caretBlinkId).value} else old(reg.intervals)
    {
      if caretBlinkId.Some? {
        reg.intervals := reg.intervals - {caretBlinkId.value};
        caretBlinkId := None;
      }
      caretVisible := false;
    }

    /** Open the shared overlay over this widget, with this widget's submit callback. */
    method ShowDomOverlay(reg: FocusRegistry, frame: Frame, bounds: Bounds)
      requires NonDegenerate(frame)
      requires reg.dom != null ==> reg.dom.Valid()
      modifies reg.dom
      ensures reg.dom != null ==> reg.dom.Valid()
      ensures reg.dom != null ==>
        var width := ShownWidth(Some(OverlayWidth(frame, bg.boxWidth)));
        reg.dom.visible && !reg.dom.persistent && reg.dom.submitCb == Some(this)
        && reg.dom.value == valueText && reg.dom.placeholder == placeholder
        && reg.dom.styleWidth == Some(width)
        && reg.dom.styleLeft == Some(CenteredStart(OverlayCenterX(frame, bounds), width))
        && reg.dom.styleTop == Some(CenteredStart(OverlayCenterY(frame, bounds), FieldHeight))
    {
      if reg.dom == null {
        return;
      }
      var centerXCss := OverlayCenterX(frame, bounds);
      var centerYCss := OverlayCenterY(frame, bounds);
      var widthCss := OverlayWidth(frame, bg.boxWidth);
      reg.dom.Show(InputOptions(Some(valueText), Some(placeholder), centerXCss, centerYCss,
                                Some(widthCss), Some("text"), Some("text")), this);
    }

    /**
     * Take focus. A focused widget does nothing. Otherwise the widget that
     * holds focus, if any, is blurred completely first; then this widget
     * becomes the focused one, its caret starts blinking, and it captures
     * input through the overlay on a touch device or through a window key
     * listener elsewhere.
     */
    method Focus(reg: FocusRegistry, isTouch: bool, frame: Frame, bounds: Bounds)
      requires reg.Valid() && this in reg.widgets
      requires isTouch ==> NonDegenerate(frame)
      modifies this, reg, reg.active, reg.dom
      ensures reg.Valid() && reg.widgets == old(reg.widgets)
      ensures focused && reg.active == this
      ensures old(focused) ==> unchanged(this) && unchanged(reg) && (reg.dom != null ==> unchanged(reg.dom))
      ensures !old(focused) && old(reg.active) != null ==>
        !old(reg.active).focused && old(reg.active).caretBlinkId == None
        && !old(reg.active).keyCapture && !old(reg.active).viewportTracking
      ensures !old(focused) ==>
        usingDom == isTouch && caretVisible && caretBlinkId == Some(old(reg.nextInterval))
        && reg.intervals == {old(reg.nextInterval)}
      ensures !old(focused) && isTouch ==>
        reg.dom != null && (old(reg.dom) == null ==> fresh(reg.dom)) && (old(reg.dom) != null ==> reg.dom == old(reg.dom))
        && reg.dom.visible && reg.dom.submitCb == Some(this)
        && reg.dom.value == valueText && reg.dom.placeholder == placeholder
        && reg.dom.styleWidth == Some(ShownWidth(Some(OverlayWidth(frame, bg.boxWidth))))
        && reg.dom.styleLeft == Some(CenteredStart(OverlayCenterX(frame, bounds),
                                                   ShownWidth(Some(OverlayWidth(frame, bg.boxWidth)))))
        && reg.dom.styleTop == Some(CenteredStart(OverlayCenterY(frame, bounds), FieldHeight))
      ensures !old(focused) && !isTouch ==> keyCapture && reg.dom == old(reg.dom)
      ensures valueText == old(valueText) && placeholder == old(placeholder) && caretX == old(caretX)
      ensures labelText == old(labelText) && labelFill == old(labelFill) && destroyed == old(destroyed)
      ensures old(reg.active) != null && old(reg.active) != this ==>
        var prev := old(reg.active);
        prev.valueText == old(prev.valueText) && prev.placeholder == old(prev.placeholder)
        && prev.labelText == old(prev.labelText) && prev.labelFill == old(prev.labelFill)
        && prev.destroyed == old(prev.destroyed)
    {
      if focused {
        return;
      }
      if reg.active != null && reg.active != this {
        reg.active.Blur(reg);
      }
      Activate(reg, isTouch, frame, bounds);
    }

    /**
     * The second half of `Focus`, once no widget holds focus: this widget
     * takes the focus slot and starts its caret, then captures input through
     * the overlay on a touch device or through a window key listener elsewhere.
     */
    method Activate(reg: FocusRegistry, isTouch: bool, frame: Frame, bounds: Bounds)
      requires reg.Valid() && this in reg.widgets && reg.active == null
      requires isTouch ==> NonDegenerate(frame)
      modifies this`focused, this`usingDom, this`caretBlinkId, this`caretVisible,
               this`keyCapture, this`viewportTracking,
               reg`active, reg`dom, reg`intervals, reg`nextInterval, reg.dom
      ensures reg.Valid() && reg.widgets == old(reg.widgets)
      ensures focused && reg.active == this
      ensures usingDom == isTouch && caretVisible && caretBlinkId == Some(old(reg.nextInterval))
      ensures reg.intervals == {old(reg.nextInterval)}
      ensures isTouch ==>
        reg.dom != null && (old(reg.dom) == null ==> fresh(reg.dom)) && (old(reg.dom) != null ==> reg.dom == old(reg.dom))
        && reg.dom.visible && reg.dom.submitCb == Some(this)
        && reg.dom.value == valueText && reg.dom.placeholder == placeholder
        && reg.dom.styleWidth == Some(ShownWidth(Some(OverlayWidth(frame, bg.boxWidth))))
        && reg.dom.styleLeft == Some(CenteredStart(OverlayCenterX(frame, bounds),
                                                   ShownWidth(Some(OverlayWidth(frame, bg.boxWidth)))))
        && reg.dom.styleTop == Some(CenteredStart(OverlayCenterY(frame, bounds), FieldHeight))
      ensures !isTouch ==> keyCapture && reg.dom == old(reg.dom)
      ensures valueText == old(valueText) && placeholder == old(placeholder) && caretX == old(caretX)
      ensures labelText == old(labelText) && labelFill == old(labelFill) && destroyed == old(destroyed)
    {
      if isTouch {
        ActivateThroughOverlay(reg, frame, bounds);
      } else {
        ActivateWithKeys(reg);
      }
    }

    /** `Activate` on a device without touch: the window key listener captures input. */
    method ActivateWithKeys(reg: FocusRegistry)
      requires reg.Valid() && this in reg.widgets && reg.active == null
      modifies this`focused, this`usingDom, this`caretBlinkId, this`caretVisible, this`keyCapture,
               reg`active, reg`intervals, reg`nextInterval
      ensures reg.Valid()
      ensures focused && reg.active == this && !usingDom && keyCapture
      ensures caretVisible && caretBlinkId == Some(old(reg.nextInterval))
      ensures reg.intervals == {old(reg.nextInterval)}
    {
      ghost var others := reg.widgets - {this};
      assert forall w :: w in others ==> w.Valid() && !w.focused;
      focused := true;
      reg.active := this;
      StartCaret(reg);
      usingDom := false;
      keyCapture := true;
      assert Valid();
      assert forall w :: w in reg.widgets ==> w.Valid() && (w.focused <==> w == reg.active);
    }

    /** `Activate` on a touch device: the shared overlay opens over this widget and follows the viewport. */
    method ActivateThroughOverlay(reg: FocusRegistry, frame: Frame, bounds: Bounds)
      requires reg.Valid() && this in reg.widgets && reg.active == null
      requires NonDegenerate(frame)
      modifies this`focused, this`usingDom, this`caretBlinkId, this`caretVisible, this`viewportTracking,
               reg`active, reg`dom, reg`intervals, reg`nextInterval, reg.dom
      ensures reg.Valid()
      ensures focused && reg.active == this && usingDom && viewportTracking
      ensures caretVisible && caretBlinkId == Some(old(reg.nextInterval))
      ensures reg.intervals == {old(reg.nextInterval)}
      ensures
        reg.dom != null && (old(reg.dom) == null ==> fresh(reg.dom)) && (old(reg.dom) != null ==> reg.dom == old(reg.dom))
        && reg.dom.visible && reg.dom.submitCb == Some(this)
        && reg.dom.value == valueText && reg.dom.placeholder == placeholder
        && reg.dom.styleWidth == Some(ShownWidth(Some(OverlayWidth(frame, bg.boxWidth))))
        && reg.dom.styleLeft == Some(CenteredStart(OverlayCenterX(frame, bounds),
                                                   ShownWidth(Some(OverlayWidth(frame, bg.boxWidth)))))
        && reg.dom.styleTop == Some(CenteredStart(OverlayCenterY(frame, bounds), FieldHeight))
    {
      ghost var others := reg.widgets - {this};
      assert forall w :: w in others ==> w.Valid() && !w.focused;
      focused := true;
      reg.active := this;
      StartCaret(reg);
      OpenOverlay(reg, frame, bounds);
      usingDom := true;
      viewportTracking := true;
      assert Valid();
      assert forall w :: w in reg.widgets ==> w.Valid() && (w.focused <==> w == reg.active);
    }

    /** The touch branch of `Activate`: create the shared overlay on first use, then show it over this widget. */
    method OpenOverlay(reg: FocusRegistry, frame: Frame, bounds: Bounds)
      requires NonDegenerate(frame)
      requires reg.dom != null ==> reg.dom.Valid()
      modifies reg`dom, reg.dom
      ensures reg.dom != null && reg.dom.Valid()
      ensures old(reg.dom) == null ==> fresh(reg.dom)
      ensures old(reg.dom) != null ==> reg.dom == old(reg.dom)
      ensures var width := ShownWidth(Some(OverlayWidth(frame, bg.boxWidth)));
        reg.dom.visible && !reg.dom.persistent && reg.dom.submitCb == Some(this)
        && reg.dom.value == valueText && reg.dom.placeholder == placeholder
        && reg.dom.styleWidth == Some(width)
        && reg.dom.styleLeft == Some(CenteredStart(OverlayCenterX(frame, bounds), width))
        && reg.dom.styleTop == Some(CenteredStart(OverlayCenterY(frame, bounds), FieldHeight))
    {
      if reg.dom == null {
        reg.dom := new DomTextInput<TextInput>();
      }
      ShowDomOverlay(reg, frame, bounds);
    }

    /**
     * Re-place the overlay after a resize or scroll: only while this widget
     * is focused through the overlay and the overlay exists. The width is
     * set even when the overlay is hidden; the position only when it is shown.
     */
    method RepositionOverlay(reg: FocusRegistry, frame: Frame, bounds: Bounds)
      requires reg.Valid() && this in reg.widgets
      requires focused && usingDom && reg.dom != null ==> NonDegenerate(frame)
      modifies reg.dom
      ensures reg.Valid()
      ensures !(focused && usingDom && reg.dom != null) ==> reg.dom == null || unchanged(reg.dom)
      ensures focused && usingDom && reg.dom != null ==>
        var width := FloorAtLeast(MinSetWidth, OverlayWidth(frame, bg.boxWidth));
        reg.dom.styleWidth == Some(width)
        && reg.dom.visible == old(reg.dom.visible) && reg.dom.submitCb == old(reg.dom.submitCb)
        && (old(reg.dom.visible) ==>
              reg.dom.styleLeft == Some(CenteredStart(OverlayCenterX(frame, bounds), width))
              && reg.dom.styleTop == Some(CenteredStart(OverlayCenterY(frame, bounds), FieldHeight)))
        && (!old(reg.dom.visible) ==>
              reg.dom.styleLeft == old(reg.dom.styleLeft) && reg.dom.styleTop == old(reg.dom.styleTop))
    {
      if !focused || !usingDom || reg.dom == null {
        return;
      }
      var centerXCss := OverlayCenterX(frame, bounds);
      var centerYCss := OverlayCenterY(frame, bounds);
      var widthCss := OverlayWidth(frame, bg.boxWidth);
      reg.dom.SetWidth(widthCss);
      reg.dom.Reposition(centerXCss, centerYCss);
    }

    /**
     * Give up focus: a widget that is not focused does nothing. Otherwise the
     * capture branch is torn down (an overlay still shown is hidden WITHOUT
     * submitting, so this widget's pending callback is dropped), the focus
     * slot is released if it holds this widget, and the caret stops.
     */
    method Blur(reg: FocusRegistry)
      requires reg.Valid() && this in reg.widgets
      modifies this, reg, reg.dom
      ensures reg.Valid()
      ensures reg.widgets == old(reg.widgets) && reg.dom == old(reg.dom)
      ensures reg.nextInterval == old(reg.nextInterval)
      ensures !focused && caretBlinkId == None && !caretVisible && !keyCapture && !viewportTracking
      ensures !old(focused) ==> unchanged(this) && unchanged(reg) && (reg.dom != null ==> unchanged(reg.dom))
      ensures old(focused) ==> reg.active == null && reg.intervals == {}
      ensures old(focused) && reg.dom != null ==> !reg.dom.visible && reg.dom.submitCb == None
      ensures old(focused) && reg.dom != null ==> reg.dom.value == old(reg.dom.value)
      ensures valueText == old(valueText) && placeholder == old(placeholder) && usingDom == old(usingDom)
      ensures labelText == old(labelText) && labelFill == old(labelFill) && caretX == old(caretX)
      ensures destroyed == old(destroyed)
    {
      if !focused {
        return;
      }
      focused := false;
      if usingDom {
        viewportTracking := false;
        if reg.dom != null && reg.dom.visible {
          var due := reg.dom.Hide(false);
          assert due == None;
        }
      } else {
        keyCapture := false;
      }
      if reg.active == this {
        reg.active := null;
      }
      StopCaret(reg);
      assert Valid();
      assert forall w :: w in reg.widgets ==> w.Valid() && (w.focused <==> w == reg.active);
    }

    /** Tear the widget down: blur it first, so that focus and the caret timer are released. */
    method Destroy(reg: FocusRegistry)
      requires reg.Valid() && this in reg.widgets
      modifies this, reg, reg.dom
      ensures reg.Valid() && reg.widgets == old(reg.widgets) && reg.dom == old(reg.dom)
      ensures destroyed && !focused && caretBlinkId == None && reg.active != this
      ensures old(focused) ==> reg.intervals == {}
      ensures old(focused) && reg.dom != null ==> !reg.dom.visible && reg.dom.submitCb == None
      ensures !old(focused) ==> unchanged(reg) && (reg.dom != null ==> unchanged(reg.dom))
      ensures valueText == old(valueText) && placeholder == old(placeholder)
      ensures labelText == old(labelText) && labelFill == old(labelFill)
    {
      Blur(reg);
      destroyed := true;
    }

    /**
     * The window `keydown` listener of the direct-capture branch. Enter and
     * Escape blur; every other key edits the value as `EditedValue` says,
     * with room `boxWidth - 32`, and the label follows the value.
     */
    method OnKeyDown(reg: FocusRegistry, e: KeyEvent)
      requires reg.Valid() && this in reg.widgets && LabelInSync()
      modifies this, reg, reg.dom
      ensures reg.Valid() && reg.widgets == old(reg.widgets) && reg.dom == old(reg.dom)
      ensures LabelInSync()
      ensures !old(focused) ==> unchanged(this) && unchanged(reg)
      ensures old(focused) && (e.key == "Enter" || e.key == "Escape") ==>
        !focused && valueText == old(valueText) && reg.active == null
      ensures old(focused) && e.key != "Enter" && e.key != "Escape" ==>
        focused && valueText == EditedValue(old(valueText), e, bg.boxWidth - EditPadding, textWidth)
        && unchanged(reg) && (reg.dom != null ==> unchanged(reg.dom))
      ensures old(focused) && (e.key == "Enter" || e.key == "Escape") ==> caretX == old(caretX)
      ensures valueText != old(valueText) ==> caretX == CaretX(bg.boxWidth, valueText, textWidth)
      ensures old(focused) && IsPrintable(e) ==> caretX == CaretX(bg.boxWidth, valueText, textWidth)
      ensures old(focused) && EditsNothing(e, old(valueText)) ==> caretX == old(caretX)
      ensures placeholder == old(placeholder) && usingDom == old(usingDom) && destroyed == old(destroyed)
    {
      if !focused {
        return;
      }
      if e.key == "Enter" || e.key == "Escape" {
        Blur(reg);
        return;
      }
      EditWhileFocused(reg, e);
    }

    /** An editing key reaching the focused widget: the value changes as `EditTail` says, focus does not. */
    method EditWhileFocused(reg: FocusRegistry, e: KeyEvent)
      requires reg.Valid() && this in reg.widgets
      modifies this`valueText, this`labelText, this`labelFill, this`caretX
      ensures reg.Valid()
      ensures valueText == EditedValue(old(valueText), e, bg.boxWidth - EditPadding, textWidth)
      ensures valueText != old(valueText) ==> caretX == CaretX(bg.boxWidth, valueText, textWidth)
      ensures IsPrintable(e) ==> caretX == CaretX(bg.boxWidth, valueText, textWidth)
      ensures EditsNothing(e, old(valueText)) ==> caretX == old(caretX)
    {
      ghost var others := reg.widgets - {this};
      assert forall w :: w in others ==> w.Valid() && (w.focused <==> w == reg.active);
      EditTail(e);
      assert Valid();
      assert forall w :: w in reg.widgets ==> w.Valid() && (w.focused <==> w == reg.active);
    }

    /** The editing half of `OnKeyDown`: every key but Enter and Escape. */
    method EditTail(e: KeyEvent)
      requires LabelInSync()
      modifies this`valueText, this`labelText, this`labelFill, this`caretX
      ensures LabelInSync()
      ensures valueText == EditedValue(old(valueText), e, bg.boxWidth - EditPadding, textWidth)
      ensures valueText != old(valueText) ==> caretX == CaretX(bg.boxWidth, valueText, textWidth)
      ensures IsPrintable(e) ==> caretX == CaretX(bg.boxWidth, valueText, textWidth)
      ensures EditsNothing(e, old(valueText)) ==> caretX == old(caretX) && labelText == old(labelText)
    {
      if e.key == "Backspace" {
        if |valueText| > 0 {
          valueText := valueText[..|valueText| - 1];
          UpdateLabel();
        }
        return;
      }
      if e.key == "Delete" {
        // no cursor index: Delete behaves as Backspace
        if |valueText| > 0 {
          valueText := valueText[..|valueText| - 1];
          UpdateLabel();
        }
        return;
      }
      if e.ctrlKey || e.metaKey || e.altKey {
        return;
      }
      if |e.key| == 1 {
        var next := valueText + e.key;
        var oldText := valueText;
        labelText := next;
        var fits := textWidth(labelText) < bg.boxWidth - EditPadding;
        if fits {
          valueText := next;
        } else {
          labelText := if oldText != "" then oldText else placeholder;
        }
        UpdateLabel();
      }
    }

    /** The overlay's submit callback: take the submitted value, refresh the label, then blur. */
    method SubmitFromOverlay(reg: FocusRegistry, v: string)
      requires reg.Valid() && this in reg.widgets
      modifies this, reg, reg.dom
      ensures reg.Valid() && reg.widgets == old(reg.widgets) && reg.dom == old(reg.dom)
      ensures valueText == v && !focused && reg.active != this && placeholder == old(placeholder)
      ensures usingDom == old(usingDom) && destroyed == old(destroyed)
      ensures labelText == LabelText(v, placeholder) && labelFill == LabelFill(v)
      ensures caretX == CaretX(bg.boxWidth, v, textWidth)
    {
      valueText := v;
      UpdateLabel();
      Blur(reg);
    }
  }

  // ---------------------------------------------------------------------
  // The process-wide slots

  class FocusRegistry {
    /** The focused widget (`TextInput.active`). */
    var active: TextInput?
    /** The shared native overlay (`TextInput.dom`), created on first touch focus. */
    var dom: DomTextInput?<TextInput>
    /** Handles of the interval timers that are running. */
    var intervals: set<nat>
    /** Handle the next `setInterval` returns. */
    var nextInterval: nat
    /** Every widget built against this registry. */
    ghost var widgets: set<TextInput>

    /**
     * A widget is focused exactly when it is the active one; only the active
     * widget's caret timer runs; the overlay is shown exactly when a callback
     * is pending, and that callback belongs to the active widget, which
     * captures through the overlay.
     */
    ghost predicate Valid()
      reads this, widgets, dom
    {
      (forall w :: w in widgets ==> w.Valid() && (w.focused <==> w == active))
      && (active != null ==>
            active in widgets && active.caretBlinkId.Some? && intervals == {active.caretBlinkId.value})
      && (active == null ==> intervals == {})
      && (forall t :: t in intervals ==> t < nextInterval)
      && (dom != null ==>
            dom.Valid() && !dom.persistent && (dom.visible <==> dom.submitCb.Some?)
            && (dom.submitCb.Some? ==> dom.submitCb.value == active && active != null && active.usingDom))
    }

    constructor ()
      ensures Valid() && widgets == {} && active == null && dom == null
      ensures intervals == {} && nextInterval == 1
    {
      active, dom := null, null;
      intervals, nextInterval := {}, 1;
      widgets := {};
    }

    /** Run the callback call the overlay says is due, if any. */
    method RunDue(due: Option<Submission<TextInput>>)
      requires Valid() && (due.Some? ==> due.value.owner in widgets)
      modifies this, dom, if due.Some? then {due.value.owner} else {}
      ensures Valid() && widgets == old(widgets) && dom == old(dom)
      ensures due.None? ==> unchanged(this) && (dom != null ==> unchanged(dom))
      ensures due.Some? ==> due.value.owner.valueText == due.value.value && !due.value.owner.focused
      ensures due.Some? ==> due.value.owner.placeholder == old(due.value.owner.placeholder)
    {
      if due.Some? {
        due.value.owner.SubmitFromOverlay(this, due.value.value);
      }
    }

    /**
     * A key pressed in the overlay. Enter hides it and hands the trimmed
     * text to the focused widget, which then blurs. Escape hides it with no
     * callback, so the focused widget stays focused. Other keys do nothing.
     */
    method OverlayKeyDown(key: string)
      requires Valid() && dom != null
      modifies this, dom, active
      ensures Valid() && widgets == old(widgets) && dom == old(dom)
      ensures key == "Enter" && old(dom.visible) ==>
        active == null && !old(active).focused && old(active).valueText == JsText.Trim(old(dom.value))
        && old(active).placeholder == old(active.placeholder)
      ensures key == "Escape" ==>
        !dom.visible && dom.submitCb == None && dom.value == old(dom.value)
        && unchanged(this) && (old(active) != null ==> unchanged(old(active)) && active.focused)
      ensures key != "Enter" && key != "Escape" ==> unchanged(this) && unchanged(dom)
      ensures !old(dom.visible) ==> unchanged(this) && unchanged(dom)
    {
      var due := dom.OnKeyDown(key);
      RunDue(due);
    }

    /**
     * Escape in the overlay handled as the widget's own key listener handles
     * it: the overlay hides without submitting AND the focused widget blurs,
     * so a later tap focuses it afresh.
     */
    method OverlayCancel()
      requires Valid() && dom != null
      modifies this, dom, active
      ensures Valid() && widgets == old(widgets) && dom == old(dom)
      ensures !dom.visible && dom.value == old(dom.value) && active == null
      ensures old(active) != null ==>
        !old(active).focused && old(active).valueText == old(active.valueText)
        && old(active).placeholder == old(active.placeholder)
    {
      var due := dom.OnKeyDown("Escape");
      assert due == None;
      if active != null {
        active.Blur(this);
      }
    }

    /** The overlay lost native focus: it hides and submits, exactly like Enter. */
    method OverlayBlur()
      requires Valid() && dom != null
      modifies this, dom, active
      ensures Valid() && widgets == old(widgets) && dom == old(dom)
      ensures old(dom.visible) ==>
        active == null && !old(active).focused && old(active).valueText == JsText.Trim(old(dom.value))
        && old(active).placeholder == old(active.placeholder)
      ensures !old(dom.visible) ==> unchanged(this) && unchanged(dom)
    {
      var due := dom.OnBlur();
      RunDue(due);
    }
  }
}
