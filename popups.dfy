/**
 * The popup base (`BasePopup`): a full-screen dim background and a centred
 * panel whose size is the design size clamped to the viewport minus margins.
 *
 * Viewport and design sizes are whole pixels (`int`); the 0.05 margin factor
 * and the halving used for centring are exact in `real`. `Math.round(x)` is
 * `floor(x + 1/2)`.
 */
module Popups {
  import opened Optional
  import opened Box
  import opened MinMax

  /** What a popup is built from; each absent field takes its default. */
  datatype PopupOptions = PopupOptions(
    text: Option<string>,
    width: Option<int>,
    height: Option<int>,
    fontSize: Option<int>)

  const DefaultWidth: int := 350
  const DefaultHeight: int := 300
  const DefaultFontSize: int := 28
  /** Smallest margin between panel and viewport edge, per side. */
  const MinMargin: int := 16
  /** The panel is never clamped below this width ... */
  const MinPanelWidth: int := 240
  /** ... nor below this height. */
  const MinPanelHeight: int := 200


  /** `Math.round`: the whole number nearest to `x`, halves rounding up. */
  function Round(x: real): (r: int)
    ensures r as real - 0.5 <= x < r as real + 0.5
  {
    (x + 0.5).Floor
  }

  /** Margin kept on each side of an axis `extent` pixels long: 5%, at least 16. */
  function Margin(extent: int): (r: int)
    ensures r >= MinMargin
    ensures r == MinMargin || r as real - 0.5 <= extent as real * 0.05 < r as real + 0.5
    ensures extent >= 330 ==> r as real - 0.5 <= extent as real * 0.05 < r as real + 0.5
  {
    Max(MinMargin, Round(extent as real * 0.05))
  }

  /** Widest panel a viewport `w` pixels wide allows. */
  function MaxPanelWidth(w: int): (r: int)
    ensures r >= MinPanelWidth && r >= w - 2 * Margin(w)
    ensures r == MinPanelWidth || r == w - 2 * Margin(w)
  {
    Max(MinPanelWidth, w - 2 * Margin(w))
  }

  /** Tallest panel a viewport `h` pixels high allows. */
  function MaxPanelHeight(h: int): (r: int)
    ensures r >= MinPanelHeight && r >= h - 2 * Margin(h)
    ensures r == MinPanelHeight || r == h - 2 * Margin(h)
  {
    Max(MinPanelHeight, h - 2 * Margin(h))
  }

  /** A design extent clamped to the largest the viewport allows. */
  function Clamp(design: int, limit: int): (r: int)
    ensures r <= design && r <= limit
    ensures r == design || r == limit
  {
    Min(design, limit)
  }

  /** Everything `resize` sets, as one value. */
  datatype PopupLayout = PopupLayout(
    bgWidth: int, bgHeight: int,          // the dim background
    panelWidth: real, panelHeight: real,  // the panel background's size
    panelX: real, panelY: real)           // the panel's centre

  /** The layout `resize(w, h)` produces for a panel designed `dw` x `dh`. */
  function LayoutFor(dw: int, dh: int, w: int, h: int): PopupLayout
  {
    PopupLayout(w, h,
                Clamp(dw, MaxPanelWidth(w)) as real, Clamp(dh, MaxPanelHeight(h)) as real,
                w as real * 0.5, h as real * 0.5)
  }

  /**
   * The background covers the viewport exactly, the panel is centred on it,
   * and the panel is as large as its design allows up to the viewport's limit.
   */
  lemma LayoutCoversAndCentres(dw: int, dh: int, w: int, h: int)
    ensures var l := LayoutFor(dw, dh, w, h);
      && l.bgWidth == w && l.bgHeight == h
      && l.panelX * 2.0 == w as real && l.panelY * 2.0 == h as real
      && l.panelWidth <= dw as real && l.panelWidth <= MaxPanelWidth(w) as real
      && l.panelHeight <= dh as real && l.panelHeight <= MaxPanelHeight(h) as real
      && (l.panelWidth == dw as real || l.panelWidth == MaxPanelWidth(w) as real)
      && (l.panelHeight == dh as real || l.panelHeight == MaxPanelHeight(h) as real)
  {
  }

  /**
   * Once the viewport leaves room for the 240-pixel floor, the centred panel
   * keeps at least the margin free on both sides; likewise vertically.
   */
  lemma PanelKeepsMargins(dw: int, dh: int, w: int, h: int)
    requires w - 2 * Margin(w) >= MinPanelWidth
    requires h - 2 * Margin(h) >= MinPanelHeight
    ensures var l := LayoutFor(dw, dh, w, h);
      && l.panelX - l.panelWidth / 2.0 >= Margin(w) as real
      && l.panelX + l.panelWidth / 2.0 <= (w - Margin(w)) as real
      && l.panelY - l.panelHeight / 2.0 >= Margin(h) as real
      && l.panelY + l.panelHeight / 2.0 <= (h - Margin(h)) as real
  {
    var l := LayoutFor(dw, dh, w, h);
    assert l.panelWidth <= (w - 2 * Margin(w)) as real;
    assert l.panelHeight <= (h - 2 * Margin(h)) as real;
  }

  /** A wide enough design fills the viewport up to the margins exactly. */
  lemma LargeDesignFillsViewport(dw: int, dh: int, w: int, h: int)
    requires w - 2 * Margin(w) >= MinPanelWidth && dw >= w - 2 * Margin(w)
    requires h - 2 * Margin(h) >= MinPanelHeight && dh >= h - 2 * Margin(h)
    ensures LayoutFor(dw, dh, w, h).panelWidth == (w - 2 * Margin(w)) as real
    ensures LayoutFor(dw, dh, w, h).panelHeight == (h - 2 * Margin(h)) as real
  {
  }

  class BasePopup {
    /** The dim background's size; unknown (the stock texture's) until the first resize. */
    var bgWidth: Option<int>
    var bgHeight: Option<int>
    /** The panel container's position: the panel's centre. */
    var panelX: real
    var panelY: real
    /** The panel background, whose size `resize` clamps. */
    const panelBase: RoundedBox
    /** Design-time panel size. */
    const designWidth: int
    const designHeight: int
    /** The title label: text, font size and vertical offset in the panel. */
    var titleText: string
    const fontSize: int
    var titleY: real
    /** The close button: caption and vertical offset in the panel. */
    var doneText: string
    var doneY: real

    /** Everything `resize` sets, read back from the popup. */
    function Layout(): PopupLayout
      reads this, panelBase
      requires bgWidth.Some? && bgHeight.Some?
    {
      PopupLayout(bgWidth.value, bgHeight.value,
                  panelBase.boxWidth, panelBase.boxHeight,
                  panelX, panelY)
    }

    /** Build a popup; every option left out takes its default. */
    constructor (opts: PopupOptions)
      ensures designWidth == opts.width.GetOr(DefaultWidth)
      ensures designHeight == opts.height.GetOr(DefaultHeight)
      ensures fresh(panelBase)
      ensures panelBase.boxWidth == designWidth as real && panelBase.boxHeight == designHeight as real
      ensures panelBase.x == 0.0 && panelBase.y == 0.0
      ensures titleText == opts.text.GetOr("") && fontSize == opts.fontSize.GetOr(DefaultFontSize)
      ensures titleY == -80.0 && doneText == "OK" && doneY == 70.0
      ensures bgWidth == None && bgHeight == None && panelX == 0.0 && panelY == 0.0
    {
      designWidth := opts.width.GetOr(DefaultWidth);
      designHeight := opts.height.GetOr(DefaultHeight);
      panelBase := new RoundedBox(opts.width.GetOr(DefaultWidth) as real,
                                  opts.height.GetOr(DefaultHeight) as real);
      titleText := opts.text.GetOr("");
      fontSize := opts.fontSize.GetOr(DefaultFontSize);
      titleY := -80.0;
      doneText := "OK";
      doneY := 70.0;
      bgWidth, bgHeight := None, None;
      panelX, panelY := 0.0, 0.0;
    }

    /**
     * Fit the popup to a `w` x `h` viewport. The new layout depends on the
     * viewport and the design size only, so a second call with the same
     * viewport changes nothing; title and button are left where they are.
     */
    method Resize(w: int, h: int)
      modifies this`bgWidth, this`bgHeight, this`panelX, this`panelY, panelBase
      ensures bgWidth.Some? && bgHeight.Some?
      ensures Layout() == LayoutFor(designWidth, designHeight, w, h)
      ensures panelBase.x == old(panelBase.x) && panelBase.y == old(panelBase.y)
    {
      bgWidth, bgHeight := Some(w), Some(h);
      var marginX := Max(MinMargin, Round(w as real * 0.05));
      var marginY := Max(MinMargin, Round(h as real * 0.05));
      var maxW := Max(MinPanelWidth, w - marginX * 2);
      var maxH := Max(MinPanelHeight, h - marginY * 2);
      var panelW := Min(designWidth, maxW);
      var panelH := Min(designHeight, maxH);
      panelBase.SetSize(panelW as real, panelH as real);
      panelX := w as real * 0.5;
      panelY := h as real * 0.5;
    }
  }
}
