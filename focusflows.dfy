/**
 * Two-step interactions between the focused widget and the shared overlay
 * on a touch device.
 */
module FocusFlows {
  import opened Optional
  import opened InputWidget

  /**
   * Escape in the overlay, then a tap on the same widget. The overlay's
   * Escape only hides the overlay, so the widget stays focused; the tap then
   * finds it focused and does nothing. The overlay stays hidden and the
   * widget can no longer be edited until another widget takes focus.
   */
  method EscapeThenTap(reg: FocusRegistry, w: TextInput, frame: Frame, bounds: Bounds)
    requires reg.Valid() && w in reg.widgets && reg.active == w
    requires reg.dom != null && reg.dom.visible && NonDegenerate(frame)
    modifies reg, reg.dom, w
    ensures reg.Valid() && reg.active == w && w.focused
    ensures reg.dom != null && !reg.dom.visible && reg.dom.submitCb == None
  {
    reg.OverlayKeyDown("Escape");
    w.Focus(reg, true, frame, bounds);
  }

  /**
   * The same interaction with Escape handled as the widget's own key
   * listener handles it (`OverlayCancel`): the tap opens the overlay again,
   * with this widget's callback pending and its value in the field.
   */
  method CancelThenTap(reg: FocusRegistry, w: TextInput, frame: Frame, bounds: Bounds)
    requires reg.Valid() && w in reg.widgets && reg.active == w
    requires reg.dom != null && reg.dom.visible && NonDegenerate(frame)
    modifies reg, reg.dom, w
    ensures reg.Valid() && reg.active == w && w.focused
    ensures reg.dom != null && reg.dom.visible && reg.dom.submitCb == Some(w)
    ensures reg.dom.value == w.valueText
  {
    reg.OverlayCancel();
    w.Focus(reg, true, frame, bounds);
  }

  /**
   * Focus passing from one widget to another keeps what the first widget
   * holds: its value, its placeholder and a label still in sync with them.
   */
  method FocusTransfer(reg: FocusRegistry, a: TextInput, b: TextInput, isTouch: bool,
                       frame: Frame, bounds: Bounds)
    requires reg.Valid() && a in reg.widgets && b in reg.widgets && a != b
    requires reg.active == a && (isTouch ==> NonDegenerate(frame))
    modifies reg, reg.dom, a, b
    ensures reg.Valid() && reg.active == b && b.focused && !a.focused
    ensures a.valueText == old(a.valueText) && a.placeholder == old(a.placeholder)
    ensures a.LabelInSync() && b.LabelInSync()
  {
    b.Focus(reg, isTouch, frame, bounds);
  }

  /**
   * On a device without touch, a printable key typed after focusing edits
   * the value exactly as `EditedValue` says.
   */
  method FocusThenType(reg: FocusRegistry, w: TextInput, e: KeyEvent, frame: Frame, bounds: Bounds)
    requires reg.Valid() && w in reg.widgets && IsPrintable(e)
    modifies reg, reg.dom, reg.active, w
    ensures reg.Valid() && reg.active == w && w.focused && w.LabelInSync()
    ensures w.valueText == EditedValue(old(w.valueText), e, w.bg.boxWidth - EditPadding, w.textWidth)
  {
    w.Focus(reg, false, frame, bounds);
    w.OnKeyDown(reg, e);
  }
}
