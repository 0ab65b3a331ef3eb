/**
 * The native overlay input controller (`DomTextInput`): one platform text
 * field laid over the canvas, shown either transiently (focus driven,
 * dismissed by Enter, Escape or losing native focus) or persistently
 * (mounted, dismissed only by an explicit hide or destroy).
 *
 * The submit callback is modelled by the identity of its owner, of type `Cb`.
 * `Hide` does not call anything: it RETURNS the call that is due, which the
 * caller then makes. The call therefore happens after every field update of
 * `Hide`, exactly as in the source, where the callback runs last.
 */
module DomInput {
  import opened Optional
  import opened JsText
  import opened MinMax

  /** Height of the native field in CSS pixels (its fixed `style.height`). */
  const FieldHeight: int := 44
  /** Width used when `show`/`mount` are given none. */
  const DefaultFieldWidth: real := 280.0
  /** Width assumed by `reposition` when the style width does not parse. */
  const FallbackWidth: int := 280
  /** Narrowest field `show`/`mount` produce. */
  const MinShownWidth: int := 160
  /** Narrowest field `setWidth` produces. */
  const MinSetWidth: int := 120

  /** What `show` and `mount` are given (the callback is passed apart). */
  datatype InputOptions = InputOptions(
    value: Option<string>,
    placeholder: Option<string>,
    x: real,                     // page x of the field's centre, CSS pixels
    y: real,                     // page y of the field's centre, CSS pixels
    width: Option<real>,
    inputType: Option<string>,
    inputMode: Option<string>)

  /** A callback call that is due: `owner`'s submit callback with `value`. */
  datatype Submission<Cb> = Submission(owner: Cb, value: string)

  /** `Math.max(lo, Math.floor(v))`: the whole number of pixels `v` floors to, but never below `lo`. */
  function FloorAtLeast(lo: int, v: real): (r: int)
    ensures r >= lo
    ensures v >= lo as real ==> r as real <= v < r as real + 1.0
    ensures v < lo as real ==> r == lo
  {
    Max(lo, v.Floor)
  }

  /** Width of a shown or mounted field: `max(160, floor(width ?? 280))`. */
  function ShownWidth(width: Option<real>): (r: int)
    ensures r >= MinShownWidth
    ensures width.None? ==> r == 280
    ensures width.Some? && width.value >= 160.0 ==> r as real <= width.value < r as real + 1.0
    ensures width.Some? && width.value < 160.0 ==> r == MinShownWidth
  {
    FloorAtLeast(MinShownWidth, width.GetOr(DefaultFieldWidth))
  }

  /**
   * Left (or top) edge that centres a field of `size` pixels on `c`:
   * `floor(c - size / 2)`. The field's centre then lies at most one pixel
   * left of (above) `c`.
   */
  function CenteredStart(c: real, size: int): (r: int)
    ensures r as real + size as real / 2.0 <= c < r as real + size as real / 2.0 + 1.0
  {
    (c - size as real / 2.0).Floor
  }

  /** `opts.type || "text"`: an absent or empty type falls back to "text". */
  function TypeOrText(t: Option<string>): (r: string)
    ensures r != ""
    ensures t.Some? && t.value != "" ==> r == t.value
    ensures t.None? || t.value == "" ==> r == "text"
  {
    if t.None? || t.value == "" then "text" else t.value
  }

  class DomTextInput<Cb> {
    /** The pending submit callback, by owner (`null` in the source is `None`). */
    var submitCb: Option<Cb>
    var visible: bool
    var persistent: bool
    /** The native element is still attached to its parent. */
    var attached: bool
    /** `style.display` is "block" (otherwise "none"). */
    var displayed: bool
    var value: string
    var placeholder: string
    var inputType: string
    /** The `inputmode` attribute, absent until the first `show`. */
    var inputMode: Option<string>
    /** `style.width`, `style.left`, `style.top` in whole pixels; absent until first set. */
    var styleWidth: Option<int>
    var styleLeft: Option<int>
    var styleTop: Option<int>

    /**
     * A callback is pending only while the field is visible, and a visible
     * field is displayed and placed.
     */
    ghost predicate Valid()
      reads this
    {
      (submitCb.Some? ==> visible)
      && (visible ==> displayed && styleWidth.Some? && styleLeft.Some? && styleTop.Some?)
    }

    constructor ()
      ensures Valid()
      ensures submitCb == None && !visible && !persistent && attached && !displayed
      ensures value == "" && placeholder == "" && inputType == "text" && inputMode == None
      ensures styleWidth == None && styleLeft == None && styleTop == None
    {
      submitCb := None;
      visible, persistent := false, false;
      attached, displayed := true, false;
      value, placeholder, inputType, inputMode := "", "", "text", None;
      styleWidth, styleLeft, styleTop := None, None, None;
    }

    /** The width `reposition` reads back from the style: `parseInt(width) || 280`. */
    function ParsedWidth(): (r: int)
      reads this
      ensures styleWidth.Some? && styleWidth.value != 0 ==> r == styleWidth.value
      ensures styleWidth.None? || styleWidth.value == 0 ==> r == FallbackWidth
    {
      if styleWidth.Some? && styleWidth.value != 0 then styleWidth.value else FallbackWidth
    }

    /**
     * The geometry shared by `Show` and `Mount`: width `max(160, floor(w ?? 280))`,
     * left and top edges that centre the field on (x, y).
     */
    method Place(x: real, y: real, width: Option<real>)
      modifies this`styleWidth, this`styleLeft, this`styleTop
      ensures styleWidth == Some(ShownWidth(width))
      ensures styleLeft == Some(CenteredStart(x, ShownWidth(width)))
      ensures styleTop == Some(CenteredStart(y, FieldHeight))
    {
      var w := ShownWidth(width);
      var height := FieldHeight;
      styleWidth := Some(w);
      styleLeft := Some(CenteredStart(x, w));
      styleTop := Some(CenteredStart(y, height));
    }

    /** Open the field transiently, remembering `onSubmit` as the one callback to run. */
    method Show(opts: InputOptions, onSubmit: Cb)
      requires Valid()
      modifies this
      ensures Valid()
      ensures visible && !persistent && displayed && submitCb == Some(onSubmit)
      ensures value == opts.value.GetOr("") && placeholder == opts.placeholder.GetOr("")
      ensures inputType == TypeOrText(opts.inputType)
      ensures inputMode == Some(TypeOrText(opts.inputMode))
      ensures styleWidth == Some(ShownWidth(opts.width))
      ensures styleLeft == Some(CenteredStart(opts.x, ShownWidth(opts.width)))
      ensures styleTop == Some(CenteredStart(opts.y, FieldHeight))
      ensures attached == old(attached)
    {
      persistent := false;
      submitCb := Some(onSubmit);
      value := opts.value.GetOr("");
      placeholder := opts.placeholder.GetOr("");
      inputType := TypeOrText(opts.inputType);
      inputMode := Some(TypeOrText(opts.inputMode));
      Place(opts.x, opts.y, opts.width);
      displayed := true;
      visible := true;
    }

    /**
     * Open the field persistently. The geometry is computed as in `Show`;
     * the type, input mode and any pending callback are left as they were.
     */
    method Mount(opts: InputOptions)
      requires Valid()
      modifies this
      ensures Valid()
      ensures visible && persistent && displayed
      ensures submitCb == old(submitCb)
      ensures value == opts.value.GetOr("") && placeholder == opts.placeholder.GetOr("")
      ensures inputType == old(inputType) && inputMode == old(inputMode)
      ensures styleWidth == Some(ShownWidth(opts.width))
      ensures styleLeft == Some(CenteredStart(opts.x, ShownWidth(opts.width)))
      ensures styleTop == Some(CenteredStart(opts.y, FieldHeight))
      ensures attached == old(attached)
    {
      persistent := true;
      value := opts.value.GetOr("");
      placeholder := opts.placeholder.GetOr("");
      Place(opts.x, opts.y, opts.width);
      displayed := true;
      visible := true;
    }

    /** Re-centre a visible field on (x, y), keeping its width; a hidden field is left alone. */
    method Reposition(x: real, y: real)
      requires Valid()
      modifies this
      ensures Valid()
      ensures !old(visible) ==> unchanged(this)
      ensures old(visible) ==>
        styleLeft == Some(CenteredStart(x, old(ParsedWidth())))
        && styleTop == Some(CenteredStart(y, FieldHeight))
        && styleWidth == old(styleWidth)
      ensures submitCb == old(submitCb) && visible == old(visible) && persistent == old(persistent)
      ensures displayed == old(displayed) && attached == old(attached)
      ensures value == old(value) && placeholder == old(placeholder)
      ensures inputType == old(inputType) && inputMode == old(inputMode)
    {
      if !visible {
        return;
      }
      var width := ParsedWidth();
      var height := FieldHeight;
      styleLeft := Some(CenteredStart(x, width));
      styleTop := Some(CenteredStart(y, height));
    }

    /**
     * Close the field. The callback slot and the visibility flag are cleared
     * first; the result is the callback call then due: the stored callback
     * with the trimmed value when `submit` holds, nothing otherwise. A hidden
     * field is left alone and owes no call, so a callback runs at most once
     * per `Show`.
     */
    method Hide(submit: bool) returns (due: Option<Submission<Cb>>)
      requires Valid()
      modifies this
      ensures Valid()
      ensures !old(visible) ==> unchanged(this) && due == None
      ensures old(visible) ==> !visible && !displayed && submitCb == None
      ensures old(visible) && submit && old(submitCb).Some? ==>
        due == Some(Submission(old(submitCb).value, Trim(value)))
      ensures !submit || old(submitCb).None? ==> due == None
      ensures persistent == old(persistent) && attached == old(attached)
      ensures value == old(value) && placeholder == old(placeholder)
      ensures inputType == old(inputType) && inputMode == old(inputMode)
      ensures styleWidth == old(styleWidth) && styleLeft == old(styleLeft) && styleTop == old(styleTop)
    {
      if !visible {
        return None;
      }
      var cb := submitCb;
      submitCb := None;
      visible := false;
      displayed := false;
      if submit && cb.Some? {
        due := Some(Submission(cb.value, Trim(value)));
      } else {
        due := None;
      }
    }

    /**
     * The native `keydown` listener: Enter hides and submits, Escape hides
     * without submitting, any other key does nothing; a persistent field
     * ignores every key.
     */
    method OnKeyDown(key: string) returns (due: Option<Submission<Cb>>)
      requires Valid()
      modifies this
      ensures Valid()
      ensures persistent || !old(visible) || (key != "Enter" && key != "Escape") ==> unchanged(this) && due == None
      ensures !persistent && old(visible) && (key == "Enter" || key == "Escape") ==>
        !visible && !displayed && submitCb == None
      ensures !persistent && key == "Enter" && old(visible) && old(submitCb).Some? ==>
        due == Some(Submission(old(submitCb).value, Trim(value)))
      ensures key != "Enter" || old(submitCb).None? ==> due == None
      ensures !persistent && key == "Escape" ==> !visible && submitCb == None
      ensures persistent == old(persistent) && attached == old(attached)
      ensures value == old(value) && placeholder == old(placeholder)
      ensures inputType == old(inputType) && inputMode == old(inputMode)
      ensures styleWidth == old(styleWidth) && styleLeft == old(styleLeft) && styleTop == old(styleTop)
    {
      if persistent {
        return None;
      }
      if key == "Enter" {
        due := Hide(true);
      } else if key == "Escape" {
        due := Hide(false);
      } else {
        due := None;
      }
    }

    /** The native `blur` listener: a transient field hides and submits; a persistent one stays. */
    method OnBlur() returns (due: Option<Submission<Cb>>)
      requires Valid()
      modifies this
      ensures Valid()
      ensures persistent || !old(visible) ==> unchanged(this) && due == None
      ensures !persistent ==> !visible && submitCb == None
      ensures !persistent && old(visible) ==> !displayed
      ensures !persistent && old(visible) && old(submitCb).Some? ==>
        due == Some(Submission(old(submitCb).value, Trim(value)))
      ensures old(submitCb).None? ==> due == None
      ensures persistent == old(persistent) && attached == old(attached)
      ensures value == old(value) && placeholder == old(placeholder)
      ensures inputType == old(inputType) && inputMode == old(inputMode)
      ensures styleWidth == old(styleWidth) && styleLeft == old(styleLeft) && styleTop == old(styleTop)
    {
      if persistent {
        return None;
      }
      due := Hide(true);
    }

    method IsVisible() returns (r: bool)
      ensures r == visible
    {
      r := visible;
    }

    /** Replace the field's text (also what the user's typing does). */
    method SetValue(v: string)
      modifies this`value
      ensures value == v
    {
      value := v;
    }

    method GetValue() returns (r: string)
      ensures r == value
    {
      r := value;
    }

    method SetPlaceholder(p: string)
      modifies this`placeholder
      ensures placeholder == p
    {
      placeholder := p;
    }

    /** Set the field's width to `max(120, floor(w))`, whether or not it is visible. */
    method SetWidth(w: real)
      requires Valid()
      modifies this`styleWidth
      ensures Valid()
      ensures styleWidth == Some(FloorAtLeast(MinSetWidth, w))
    {
      styleWidth := Some(FloorAtLeast(MinSetWidth, w));
    }

    /** Detach the element and drop the visibility flag and any pending callback. */
    method Destroy()
      requires Valid()
      modifies this`attached, this`visible, this`submitCb
      ensures Valid()
      ensures !attached && !visible && submitCb == None
    {
      attached := false;
      visible := false;
      submitCb := None;
    }
  }

  /**
   * A callback runs at most once per `Show`: whatever the first `Hide` owes,
   * a second one, with or without submit, owes nothing.
   */
  method HideTwice<Cb>(d: DomTextInput<Cb>, first: bool, second: bool)
    returns (due1: Option<Submission<Cb>>, due2: Option<Submission<Cb>>)
    requires d.Valid()
    modifies d
    ensures d.Valid() && !d.visible && d.submitCb == None
    ensures due2 == None
    ensures due1.Some? ==> first && old(d.visible) && old(d.submitCb) == Some(due1.value.owner)
  {
    due1 := d.Hide(first);
    due2 := d.Hide(second);
  }
}
