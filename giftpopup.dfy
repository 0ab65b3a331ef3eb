/**
 * The gift-suggestion popup (`GiftSuggestionPopup`): a `BasePopup` holding a
 * content column with two sections. The image section shows a square image
 * slot and the gift text beside it. The PIX section shows a square QR-code
 * slot and two labels (the PIX key and a note). Depending on the width, the
 * labels sit beside the slot or below it.
 *
 * The popup is built on a `BasePopup` by composition (`base`). Label heights
 * come from text measurement, which is the rendering library's; they are
 * the functions `keyHeight` and `noteHeight` of (text, wrap width). All
 * child positions are in their parent's space, centred boxes measured from
 * their centre.
 */
module GiftPopup {
  import opened Optional
  import opened Box
  import opened MinMax
  import Popups

  const DesignWidth: int := 880
  const DesignHeight: int := 780
  /** The content column is the panel width less this, but never below `MinContentWidth`. */
  const ContentInset: real := 80.0
  const MinContentWidth: real := 320.0
  /** The content column starts this far below the panel's top edge. */
  const ContentTop: real := 140.0
  /** Padding inside both sections, and the gap between them. */
  const Pad: real := 28.0
  const SectionGap: real := 28.0
  /** Fixed height of the image section. */
  const ImageHeight: real := 240.0
  /** Gap between a slot and the text beside it. */
  const ColumnGap: real := 24.0
  /** In the stacked arrangement, gap between the QR slot and the labels below it. */
  const Spacer: real := 20.0
  /** Gap between the PIX key label and the note below it. */
  const LineGap: real := 12.0
  /** Below this text-area width the PIX section stacks its labels under the slot. */
  const StackBelow: real := 260.0
  /** A sprite is fitted into its slot less this much. */
  const SpriteInset: real := 20.0
  const KeyPrefix: string := "Chave PIX: "


  /** Width of the content column for a panel `panelWidth` wide. */
  function ContentWidth(panelWidth: real): (r: real)
    ensures r >= MinContentWidth && r >= panelWidth - ContentInset
    ensures r == MinContentWidth || r == panelWidth - ContentInset
  {
    MaxReal(MinContentWidth, panelWidth - ContentInset)
  }

  /**
   * Side of the square image slot: 45% of the padded section width, at most
   * 200 and at most the padded section height (184), at least 120.
   */
  function ImageSlotSide(contentWidth: real): (r: real)
    ensures 120.0 <= r <= 184.0
    ensures 120.0 <= (contentWidth - 2.0 * Pad) * 0.45 <= 184.0 ==> r == (contentWidth - 2.0 * Pad) * 0.45
    ensures (contentWidth - 2.0 * Pad) * 0.45 <= 120.0 ==> r == 120.0
    ensures (contentWidth - 2.0 * Pad) * 0.45 >= 184.0 ==> r == 184.0
  {
    MaxReal(120.0, MinReal(MinReal(200.0, ImageHeight - 2.0 * Pad), (contentWidth - 2.0 * Pad) * 0.45))
  }

  /**
   * Side of the square QR slot: 40% of the padded section width, at most 180
   * and at most 184, at least 120.
   */
  function QrSlotSide(contentWidth: real): (r: real)
    ensures 120.0 <= r <= 180.0
    ensures 120.0 <= (contentWidth - 2.0 * Pad) * 0.4 <= 180.0 ==> r == (contentWidth - 2.0 * Pad) * 0.4
    ensures (contentWidth - 2.0 * Pad) * 0.4 <= 120.0 ==> r == 120.0
    ensures (contentWidth - 2.0 * Pad) * 0.4 >= 180.0 ==> r == 180.0
  {
    MaxReal(120.0, MinReal(MinReal(180.0, ImageHeight - 2.0 * Pad), (contentWidth - 2.0 * Pad) * 0.4))
  }

  /** Whether the PIX labels go below the QR slot: the room beside it is under 260. */
  predicate Stacked(contentWidth: real)
  {
    contentWidth - 2.0 * Pad - QrSlotSide(contentWidth) - ColumnGap < StackBelow
  }

  /** A picture placed in a slot: its texture's size and its uniform scale. */
  datatype Sprite = Sprite(textureWidth: real, textureHeight: real, scale: real)

  /** The scale that fits a `tw` x `th` texture into a `maxSize` square without enlarging it. */
  function FitScale(maxSize: real, tw: real, th: real): (r: real)
    requires tw > 0.0 && th > 0.0
    ensures r <= 1.0 && r * tw <= maxSize && r * th <= maxSize
    ensures r == 1.0 || r * tw == maxSize || r * th == maxSize
  {
    var sw := maxSize / tw;
    var sh := maxSize / th;
    assert sw * tw == maxSize && sh * th == maxSize;
    MinReal(MinReal(sw, sh), 1.0)
  }

  /** A sprite after `resize` has fitted it into a `maxSize` square; an empty texture keeps its scale. */
  function Fitted(s: Option<Sprite>, maxSize: real): (r: Option<Sprite>)
    ensures r.Some? <==> s.Some?
    ensures r.Some? ==> r.value.textureWidth == s.value.textureWidth && r.value.textureHeight == s.value.textureHeight
    ensures s.Some? && (s.value.textureWidth <= 0.0 || s.value.textureHeight <= 0.0) ==> r == s
    ensures s.Some? && s.value.textureWidth > 0.0 && s.value.textureHeight > 0.0 ==>
      r.value.scale == FitScale(maxSize, s.value.textureWidth, s.value.textureHeight)
  {
    match s
    case None => None
    case Some(sp) =>
      if sp.textureWidth > 0.0 && sp.textureHeight > 0.0
      then Some(sp.(scale := FitScale(maxSize, sp.textureWidth, sp.textureHeight)))
      else s
  }

  /** Geometry of the image section: the section, its slot, and where the gift text starts and wraps. */
  datatype ImageLayout = ImageLayout(section: BoxState, slot: BoxState, textX: real, textWrap: real)

  /** Geometry of the PIX section: the section, its QR slot, and both labels' wrap widths and positions. */
  datatype PixLayout = PixLayout(
    section: BoxState, slot: BoxState,
    keyWrap: real, noteWrap: real,
    keyX: real, keyY: real, noteX: real, noteY: real)

  /** Everything `resize` lays out below the base popup: the content column's offset and both sections. */
  datatype GiftLayout = GiftLayout(contentY: real, image: ImageLayout, pix: PixLayout)

  /** The image section for a content column `cw` wide; its top edge is the column's top. */
  function ImageLayoutFor(cw: real): ImageLayout
  {
    var side := ImageSlotSide(cw);
    var slotX := -cw * 0.5 + Pad + side * 0.5;
    var textX := slotX + side * 0.5 + ColumnGap;
    ImageLayout(BoxState(cw, ImageHeight, 0.0, ImageHeight * 0.5),
                BoxState(side, side, slotX, 0.0),
                textX, MaxReal(200.0, cw * 0.5 - Pad - textX))
  }

  /**
   * The PIX section for a content column `cw` wide whose top edge is at
   * `top`, with the labels measured at the wrap width they get.
   */
  function PixLayoutFor(cw: real, top: real, keyText: string, noteText: string,
                        keyHeight: (string, real) -> real, noteHeight: (string, real) -> real): PixLayout
  {
    var side := QrSlotSide(cw);
    var usable := cw - 2.0 * Pad;
    if Stacked(cw) then
      var wrap := MaxReal(220.0, usable);
      var kh := keyHeight(keyText, wrap);
      var height := 2.0 * Pad + side + Spacer + (kh + LineGap + noteHeight(noteText, wrap));
      var slotY := -height * 0.5 + Pad + side * 0.5;
      var textX := -cw * 0.5 + Pad;
      var textTop := slotY + side * 0.5 + Spacer;
      PixLayout(BoxState(cw, height, 0.0, top + height * 0.5), BoxState(side, side, 0.0, slotY),
                wrap, wrap, textX, textTop, textX, textTop + kh + LineGap)
    else
      var wrap := MaxReal(220.0, usable - side - ColumnGap);
      var kh := keyHeight(keyText, wrap);
      var height := MaxReal(2.0 * Pad + side, 2.0 * Pad + (kh + LineGap + noteHeight(noteText, wrap)));
      var sectionTop := -height * 0.5 + Pad;
      var slotX := -cw * 0.5 + Pad + side * 0.5;
      var textX := slotX + side * 0.5 + ColumnGap;
      PixLayout(BoxState(cw, height, 0.0, top + height * 0.5), BoxState(side, side, slotX, 0.0),
                wrap, wrap, textX, sectionTop, textX, sectionTop + kh + LineGap)
  }

  /** The layout `resize` produces once the base popup has clamped the panel to `panelWidth` x `panelHeight`. */
  function GiftLayoutFor(panelWidth: real, panelHeight: real, keyText: string, noteText: string,
                         keyHeight: (string, real) -> real, noteHeight: (string, real) -> real): GiftLayout
  {
    var cw := ContentWidth(panelWidth);
    GiftLayout(-panelHeight * 0.5 + ContentTop,
               ImageLayoutFor(cw),
               PixLayoutFor(cw, ImageHeight + SectionGap, keyText, noteText, keyHeight, noteHeight))
  }

  /** The labels sit below the QR slot exactly when the content column is narrower than 520. */
  lemma StackedIffNarrow(cw: real)
    requires cw >= MinContentWidth
    ensures Stacked(cw) <==> cw < 520.0
  {
    var side := QrSlotSide(cw);
    if cw >= 506.0 {
      assert (cw - 2.0 * Pad) * 0.4 >= 180.0;
      assert side == 180.0;
    } else if cw >= 356.0 {
      assert side == (cw - 2.0 * Pad) * 0.4;
    } else {
      assert (cw - 2.0 * Pad) * 0.4 < 120.0;
      assert side == 120.0;
    }
  }

  /** In terms of the panel: the PIX labels stack exactly when the panel is narrower than 600. */
  lemma StackedIffPanelNarrow(panelWidth: real)
    ensures Stacked(ContentWidth(panelWidth)) <==> panelWidth < 600.0
  {
    StackedIffNarrow(ContentWidth(panelWidth));
  }

  /**
   * The image section fills the column's first 240 pixels, the PIX section
   * starts 28 below it, and the column starts 140 below the panel's top.
   */
  lemma SectionsStackDown(panelWidth: real, panelHeight: real, keyText: string, noteText: string,
                          keyHeight: (string, real) -> real, noteHeight: (string, real) -> real)
    ensures var l := GiftLayoutFor(panelWidth, panelHeight, keyText, noteText, keyHeight, noteHeight);
      && l.contentY == -panelHeight * 0.5 + ContentTop
      && l.image.section.y - l.image.section.height * 0.5 == 0.0
      && l.pix.section.y - l.pix.section.height * 0.5
         == l.image.section.y + l.image.section.height * 0.5 + SectionGap
      && l.image.section.width == l.pix.section.width == ContentWidth(panelWidth)
  {
  }

  /**
   * Inside the image section the slot keeps the padding, and the gift text
   * starts 24 right of the slot with a wrap width of at least 200.
   */
  lemma ImageSectionHoldsSlot(cw: real)
    requires cw >= MinContentWidth
    ensures var l := ImageLayoutFor(cw);
      && l.slot.width == l.slot.height
      && l.slot.x - l.slot.width * 0.5 == -l.section.width * 0.5 + Pad
      && l.slot.x + l.slot.width * 0.5 <= l.section.width * 0.5 - Pad
      && l.slot.y - l.slot.height * 0.5 >= -l.section.height * 0.5 + Pad
      && l.slot.y + l.slot.height * 0.5 <= l.section.height * 0.5 - Pad
      && l.textX == l.slot.x + l.slot.width * 0.5 + ColumnGap
      && l.textWrap >= 200.0
  {
  }

  /**
   * The gift text's wrap box ends inside the section's right padding exactly
   * when the content column is at least 5096/11 (about 463.3) wide; on a
   * narrower column the 200-pixel minimum wrap runs past it.
   */
  lemma GiftTextInsideIff(cw: real)
    requires cw >= MinContentWidth
    ensures var l := ImageLayoutFor(cw);
      l.textX + l.textWrap <= cw * 0.5 - Pad <==> cw * 11.0 >= 5096.0
  {
    var side := ImageSlotSide(cw);
    if (cw - 2.0 * Pad) * 0.45 >= 184.0 {
      assert side == 184.0;
    } else if (cw - 2.0 * Pad) * 0.45 >= 120.0 {
      assert side == (cw - 2.0 * Pad) * 0.45;
    } else {
      assert side == 120.0;
    }
  }

  /**
   * Inside the PIX section, in both arrangements: the QR slot and both
   * labels keep the 28-pixel padding (label heights being never negative),
   * the labels' wrap boxes end exactly at the right padding, the note starts
   * 12 below the key label, and the labels do not overlap the slot.
   */
  lemma PixSectionHoldsContents(cw: real, top: real, keyText: string, noteText: string,
                                                   keyHeight: (string, real) -> real,
                                                   noteHeight: (string, real) -> real)
    requires cw >= MinContentWidth
    requires forall t, w :: keyHeight(t, w) >= 0.0 && noteHeight(t, w) >= 0.0
    ensures var l := PixLayoutFor(cw, top, keyText, noteText, keyHeight, noteHeight);
      var left := -l.section.width * 0.5 + Pad;
      var right := l.section.width * 0.5 - Pad;
      var kh := keyHeight(keyText, l.keyWrap);
      var nh := noteHeight(noteText, l.noteWrap);
      && l.section.width == cw
      && l.section.y - l.section.height * 0.5 == top
      && l.slot.width == l.slot.height == QrSlotSide(cw)
      && left <= l.slot.x - l.slot.width * 0.5 && l.slot.x + l.slot.width * 0.5 <= right
      && -l.section.height * 0.5 + Pad <= l.slot.y - l.slot.height * 0.5
      && l.slot.y + l.slot.height * 0.5 <= l.section.height * 0.5 - Pad
      && l.keyWrap == l.noteWrap && l.keyX == l.noteX
      && left <= l.keyX && l.keyX + l.keyWrap == right
      && -l.section.height * 0.5 + Pad <= l.keyY
      && l.noteY == l.keyY + kh + LineGap
      && l.noteY + nh <= l.section.height * 0.5 - Pad
      && (Stacked(cw) ==> l.keyY == l.slot.y + l.slot.height * 0.5 + Spacer)
      && (!Stacked(cw) ==> l.keyX == l.slot.x + l.slot.width * 0.5 + ColumnGap)
  {
    var side := QrSlotSide(cw);
    StackedIffNarrow(cw);
    if Stacked(cw) {
      assert MaxReal(220.0, cw - 2.0 * Pad) == cw - 2.0 * Pad;
    } else {
      assert MaxReal(220.0, cw - 2.0 * Pad - side - ColumnGap) == cw - 2.0 * Pad - side - ColumnGap;
    }
  }

  /** Fitting never enlarges a sprite that was not enlarged, and a fitted sprite fits its square. */
  lemma FittedNeverEnlarges(s: Option<Sprite>, maxSize: real)
    requires s.Some? && s.value.scale <= 1.0
    ensures Fitted(s, maxSize).value.scale <= 1.0
    ensures s.value.textureWidth > 0.0 && s.value.textureHeight > 0.0 ==>
      && Fitted(s, maxSize).value.scale * s.value.textureWidth <= maxSize
      && Fitted(s, maxSize).value.scale * s.value.textureHeight <= maxSize
  {
  }

  class GiftSuggestionPopup {
    /** The popup this one extends: dim background, panel, title and close button. */
    const base: Popups.BasePopup
    /** Vertical offset of the content column in the panel. */
    var contentY: real
    const imageSection: RoundedBox
    const imageSlot: RoundedBox
    /** Whether the "Imagem aqui" placeholder shows, and the picture, if one was set. */
    var imageSlotLabelVisible: bool
    var imageSprite: Option<Sprite>
    /** The gift text's left edge (it is centred vertically on the section) and wrap width. */
    var giftX: real
    var giftWrap: real
    const pixSection: RoundedBox
    const qrSlot: RoundedBox
    var qrSlotLabelVisible: bool
    var qrSprite: Option<Sprite>
    /** The PIX key label and the note below or beside the QR slot. */
    var pixKeyText: string
    const noteText: string
    var keyWrap: real
    var noteWrap: real
    var keyX: real
    var keyY: real
    var noteX: real
    var noteY: real
    /** Text measurement: a label's height from its text and wrap width. */
    const keyHeight: (string, real) -> real
    const noteHeight: (string, real) -> real

    /** The boxes are five distinct objects, so sizing one leaves the others alone. */
    predicate Valid()
    {
      && base.panelBase != imageSection && base.panelBase != imageSlot
      && base.panelBase != pixSection && base.panelBase != qrSlot
      && imageSection != imageSlot && imageSection != pixSection && imageSection != qrSlot
      && imageSlot != pixSection && imageSlot != qrSlot
      && pixSection != qrSlot
    }

    function ImagePart(): ImageLayout
      reads this, imageSection, imageSlot
    {
      ImageLayout(imageSection.State(), imageSlot.State(), giftX, giftWrap)
    }

    function PixPart(): PixLayout
      reads this, pixSection, qrSlot
    {
      PixLayout(pixSection.State(), qrSlot.State(), keyWrap, noteWrap, keyX, keyY, noteX, noteY)
    }

    /** Everything `resize` lays out below the base popup, read back from the popup. */
    function Layout(): GiftLayout
      reads this, imageSection, imageSlot, pixSection, qrSlot
    {
      GiftLayout(contentY, ImagePart(), PixPart())
    }

    /**
     * Build the popup at its 880 x 780 design size: title moved to the top
     * (-330), button relabelled "Fechar" and moved to the bottom (312), and
     * the sections at their initial sizes until the first resize.
     */
    constructor (keyHeight: (string, real) -> real, noteHeight: (string, real) -> real)
      ensures Valid()
      ensures base.designWidth == DesignWidth && base.designHeight == DesignHeight
      ensures base.fontSize == 40 && base.titleText == "Sugest\U{00E3}o de presente"
      ensures base.titleY == -330.0 && base.doneText == "Fechar" && base.doneY == 312.0
      ensures imageSection.boxWidth == 640.0 && imageSection.boxHeight == 280.0
      ensures imageSlot.boxWidth == 220.0 && imageSlot.boxHeight == 220.0
      ensures pixSection.boxWidth == 640.0 && pixSection.boxHeight == 220.0
      ensures qrSlot.boxWidth == 180.0 && qrSlot.boxHeight == 180.0
      ensures giftWrap == 560.0 && keyWrap == 360.0 && noteWrap == 360.0
      ensures pixKeyText == KeyPrefix + "(defina aqui)"
      ensures imageSprite == None && qrSprite == None
      ensures imageSlotLabelVisible && qrSlotLabelVisible
      ensures this.keyHeight == keyHeight && this.noteHeight == noteHeight
    {
      var b := new Popups.BasePopup(Popups.PopupOptions(Some("Sugest\U{00E3}o de presente"),
                                                        Some(DesignWidth), Some(DesignHeight), Some(40)));
      b.titleY := -b.panelBase.boxHeight * 0.5 + 60.0;
      b.doneText := "Fechar";
      b.doneY := b.panelBase.boxHeight * 0.5 - 78.0;
      base := b;
      contentY := 0.0;
      imageSection := new RoundedBox(640.0, 280.0);
      imageSlot := new RoundedBox(220.0, 220.0);
      imageSlotLabelVisible := true;
      imageSprite := None;
      giftX, giftWrap := 0.0, 560.0;
      pixSection := new RoundedBox(640.0, 220.0);
      pixKeyText := KeyPrefix + "(defina aqui)";
      noteText := "Caso prefira presentear em dinheiro, use a chave PIX.";
      keyWrap, noteWrap := 360.0, 360.0;
      keyX, keyY, noteX, noteY := 0.0, 0.0, 0.0, 0.0;
      qrSlot := new RoundedBox(180.0, 180.0);
      qrSlotLabelVisible := true;
      qrSprite := None;
      this.keyHeight := keyHeight;
      this.noteHeight := noteHeight;
    }

    /** Size the image section, its slot and picture, and the gift text, for a column `cw` wide. */
    method LayOutImage(cw: real)
      requires Valid()
      modifies imageSection, imageSlot, this`imageSlotLabelVisible, this`imageSprite,
               this`giftX, this`giftWrap
      ensures ImagePart() == ImageLayoutFor(cw)
      ensures imageSlotLabelVisible == imageSprite.None?
      ensures imageSprite == Fitted(old(imageSprite), ImageSlotSide(cw) - SpriteInset)
    {
      imageSection.SetSize(cw, ImageHeight);
      imageSection.SetPosition(0.0, imageSection.boxHeight * 0.5);
      var slotSize := MaxReal(120.0, MinReal(MinReal(200.0, imageSection.boxHeight - Pad * 2.0),
                                     (imageSection.boxWidth - Pad * 2.0) * 0.45));
      imageSlot.SetSize(slotSize, slotSize);
      var leftEdge := -imageSection.boxWidth * 0.5 + Pad;
      var rightEdge := imageSection.boxWidth * 0.5 - Pad;
      var slotX := leftEdge + slotSize * 0.5;
      imageSlot.SetPosition(slotX, 0.0);
      imageSlotLabelVisible := imageSprite.None?;
      if imageSprite.Some? {
        var sp := imageSprite.value;
        if sp.textureWidth > 0.0 && sp.textureHeight > 0.0 {
          var maxSize := slotSize - SpriteInset;
          var scale := MinReal(MinReal(maxSize / sp.textureWidth, maxSize / sp.textureHeight), 1.0);
          imageSprite := Some(sp.(scale := scale));
        }
      }
      var textX := slotX + slotSize * 0.5 + ColumnGap;
      giftWrap := MaxReal(200.0, rightEdge - textX);
      giftX := textX;
    }

    /**
     * Size the PIX section for a column `cw` wide whose top edge is at
     * `top`, placing slot and labels side by side or stacked.
     */
    method LayOutPix(cw: real, top: real)
      requires Valid()
      modifies pixSection, qrSlot, this`qrSlotLabelVisible, this`qrSprite,
               this`keyWrap, this`noteWrap, this`keyX, this`keyY, this`noteX, this`noteY
      ensures PixPart() == PixLayoutFor(cw, top, pixKeyText, noteText, keyHeight, noteHeight)
      ensures qrSlotLabelVisible == qrSprite.None?
      ensures qrSprite == Fitted(old(qrSprite), QrSlotSide(cw) - SpriteInset)
    {
      var pixWidth := cw;
      pixSection.SetSize(pixWidth, 220.0);
      var pixSlotSize := MaxReal(120.0, MinReal(MinReal(180.0, ImageHeight - Pad * 2.0), (pixWidth - Pad * 2.0) * 0.4));
      qrSlot.SetSize(pixSlotSize, pixSlotSize);
      var usableWidth := pixWidth - Pad * 2.0;
      var textAreaWidth := usableWidth - pixSlotSize - ColumnGap;
      if textAreaWidth < StackBelow {
        ArrangeStacked(cw, top);
      } else {
        ArrangeBeside(cw, top);
      }
      qrSlotLabelVisible := qrSprite.None?;
      if qrSprite.Some? {
        var sp := qrSprite.value;
        if sp.textureWidth > 0.0 && sp.textureHeight > 0.0 {
          var maxSize := qrSlot.boxWidth - SpriteInset;
          var scale := MinReal(MinReal(maxSize / sp.textureWidth, maxSize / sp.textureHeight), 1.0);
          qrSprite := Some(sp.(scale := scale));
        }
      }
    }

    /** The narrow arrangement: labels full width below the QR slot, which is centred. */
    method ArrangeStacked(cw: real, top: real)
      requires Valid() && Stacked(cw)
      requires pixSection.boxWidth == cw && qrSlot.boxWidth == qrSlot.boxHeight == QrSlotSide(cw)
      modifies pixSection, qrSlot, this`keyWrap, this`noteWrap, this`keyX, this`keyY, this`noteX, this`noteY
      ensures PixPart() == PixLayoutFor(cw, top, pixKeyText, noteText, keyHeight, noteHeight)
    {
      var pixSlotSize := qrSlot.boxWidth;
      var textWrap := MaxReal(220.0, cw - Pad * 2.0);
      keyWrap, noteWrap := textWrap, textWrap;
      var kh := keyHeight(pixKeyText, keyWrap);
      var nh := noteHeight(noteText, noteWrap);
      var pixHeight := Pad * 2.0 + pixSlotSize + Spacer + (kh + LineGap + nh);
      pixSection.SetSize(cw, pixHeight);
      pixSection.SetPosition(0.0, top + pixSection.boxHeight * 0.5);
      var sectionTop := -pixSection.boxHeight * 0.5 + Pad;
      qrSlot.SetPosition(0.0, sectionTop + pixSlotSize * 0.5);
      var textX := -pixSection.boxWidth * 0.5 + Pad;
      var textTop := qrSlot.y + pixSlotSize * 0.5 + Spacer;
      keyX, keyY := textX, textTop;
      noteX, noteY := textX, textTop + kh + LineGap;
    }

    /** The wide arrangement: QR slot at the left, centred vertically, labels to its right. */
    method ArrangeBeside(cw: real, top: real)
      requires Valid() && !Stacked(cw)
      requires pixSection.boxWidth == cw && qrSlot.boxWidth == qrSlot.boxHeight == QrSlotSide(cw)
      modifies pixSection, qrSlot, this`keyWrap, this`noteWrap, this`keyX, this`keyY, this`noteX, this`noteY
      ensures PixPart() == PixLayoutFor(cw, top, pixKeyText, noteText, keyHeight, noteHeight)
    {
      var pixSlotSize := qrSlot.boxWidth;
      var textWrap := MaxReal(220.0, cw - Pad * 2.0 - pixSlotSize - ColumnGap);
      keyWrap, noteWrap := textWrap, textWrap;
      var kh := keyHeight(pixKeyText, keyWrap);
      var nh := noteHeight(noteText, noteWrap);
      var pixHeight := MaxReal(Pad * 2.0 + pixSlotSize, Pad * 2.0 + (kh + LineGap + nh));
      pixSection.SetSize(cw, pixHeight);
      pixSection.SetPosition(0.0, top + pixSection.boxHeight * 0.5);
      var sectionTop := -pixSection.boxHeight * 0.5 + Pad;
      var sectionLeft := -pixSection.boxWidth * 0.5 + Pad;
      qrSlot.SetPosition(sectionLeft + pixSlotSize * 0.5, 0.0);
      var textX := qrSlot.x + pixSlotSize * 0.5 + ColumnGap;
      keyX, keyY := textX, sectionTop;
      noteX, noteY := textX, sectionTop + kh + LineGap;
    }

    /**
     * Fit the popup to a `w` x `h` viewport: the base popup clamps and
     * centres the panel, then both sections are laid out for the panel's
     * new size. The arrangement of the PIX section is decided afresh on
     * every call.
     */
    method Resize(w: int, h: int)
      requires Valid()
      modifies base`bgWidth, base`bgHeight, base`panelX, base`panelY, base.panelBase,
               this`contentY, imageSection, imageSlot, this`imageSlotLabelVisible, this`imageSprite,
               this`giftX, this`giftWrap, pixSection, qrSlot, this`qrSlotLabelVisible, this`qrSprite,
               this`keyWrap, this`noteWrap, this`keyX, this`keyY, this`noteX, this`noteY
      ensures base.bgWidth.Some? && base.bgHeight.Some?
      ensures base.Layout() == Popups.LayoutFor(base.designWidth, base.designHeight, w, h)
      ensures Layout() == GiftLayoutFor(base.panelBase.boxWidth, base.panelBase.boxHeight,
                                        pixKeyText, noteText, keyHeight, noteHeight)
      ensures imageSlotLabelVisible == imageSprite.None? && qrSlotLabelVisible == qrSprite.None?
      ensures imageSprite == Fitted(old(imageSprite), ImageSlotSide(ContentWidth(base.panelBase.boxWidth)) - SpriteInset)
      ensures qrSprite == Fitted(old(qrSprite), QrSlotSide(ContentWidth(base.panelBase.boxWidth)) - SpriteInset)
    {
      base.Resize(w, h);
      var panelWidth := base.panelBase.boxWidth;
      var contentWidth := MaxReal(MinContentWidth, panelWidth - ContentInset);
      contentY := -base.panelBase.boxHeight * 0.5 + ContentTop;
      LayOutImage(contentWidth);
      var currentY := imageSection.y + imageSection.boxHeight * 0.5 + SectionGap;
      assert currentY == ImageHeight + SectionGap;
      LayOutPix(contentWidth, currentY);
      assert contentWidth == ContentWidth(base.panelBase.boxWidth);
      assert ImagePart() == ImageLayoutFor(contentWidth);
    }

    /**
     * Put a picture in the image slot, replacing any earlier one, and lay the
     * popup out again for its parent's size. A popup with no parent (`None`)
     * throws once the picture is in place: `ok` is false, the new picture
     * keeps its natural scale and nothing is laid out again.
     */
    method SetGiftImage(textureWidth: real, textureHeight: real, parent: Option<(int, int)>) returns (ok: bool)
      requires Valid()
      modifies base`bgWidth, base`bgHeight, base`panelX, base`panelY, base.panelBase,
               this`contentY, imageSection, imageSlot, this`imageSlotLabelVisible, this`imageSprite,
               this`giftX, this`giftWrap, pixSection, qrSlot, this`qrSlotLabelVisible, this`qrSprite,
               this`keyWrap, this`noteWrap, this`keyX, this`keyY, this`noteX, this`noteY
      ensures ok <==> parent.Some?
      ensures parent.Some? ==>
        && !imageSlotLabelVisible
        && imageSprite == Fitted(Some(Sprite(textureWidth, textureHeight, 1.0)),
                                 ImageSlotSide(ContentWidth(base.panelBase.boxWidth)) - SpriteInset)
        && qrSprite == Fitted(old(qrSprite), QrSlotSide(ContentWidth(base.panelBase.boxWidth)) - SpriteInset)
        && Layout() == GiftLayoutFor(base.panelBase.boxWidth, base.panelBase.boxHeight,
                                     pixKeyText, noteText, keyHeight, noteHeight)
      ensures parent.None? ==>
        && imageSprite == Some(Sprite(textureWidth, textureHeight, 1.0))
        && imageSlotLabelVisible == old(imageSlotLabelVisible) && qrSprite == old(qrSprite)
        && Layout() == old(Layout()) && unchanged(base, base.panelBase)
    {
      imageSprite := Some(Sprite(textureWidth, textureHeight, 1.0));
      if parent.None? {
        return false;
      }
      Resize(parent.value.0, parent.value.1);
      ok := true;
    }

    /**
     * Put a QR code in the QR slot, replacing any earlier one, and lay the
     * popup out again for its parent's size; with no parent it throws as
     * `SetGiftImage` does.
     */
    method SetPixQr(textureWidth: real, textureHeight: real, parent: Option<(int, int)>) returns (ok: bool)
      requires Valid()
      modifies base`bgWidth, base`bgHeight, base`panelX, base`panelY, base.panelBase,
               this`contentY, imageSection, imageSlot, this`imageSlotLabelVisible, this`imageSprite,
               this`giftX, this`giftWrap, pixSection, qrSlot, this`qrSlotLabelVisible, this`qrSprite,
               this`keyWrap, this`noteWrap, this`keyX, this`keyY, this`noteX, this`noteY
      ensures ok <==> parent.Some?
      ensures parent.Some? ==>
        && !qrSlotLabelVisible
        && qrSprite == Fitted(Some(Sprite(textureWidth, textureHeight, 1.0)),
                              QrSlotSide(ContentWidth(base.panelBase.boxWidth)) - SpriteInset)
        && imageSprite == Fitted(old(imageSprite), ImageSlotSide(ContentWidth(base.panelBase.boxWidth)) - SpriteInset)
        && Layout() == GiftLayoutFor(base.panelBase.boxWidth, base.panelBase.boxHeight,
                                     pixKeyText, noteText, keyHeight, noteHeight)
      ensures parent.None? ==>
        && qrSprite == Some(Sprite(textureWidth, textureHeight, 1.0))
        && qrSlotLabelVisible == old(qrSlotLabelVisible) && imageSprite == old(imageSprite)
        && Layout() == old(Layout()) && unchanged(base, base.panelBase)
    {
      qrSprite := Some(Sprite(textureWidth, textureHeight, 1.0));
      if parent.None? {
        return false;
      }
      Resize(parent.value.0, parent.value.1);
      ok := true;
    }

    /**
     * Show `key` as the PIX key. Nothing is laid out again: the labels keep
     * the positions the last resize measured for the previous text.
     */
    method SetPixKey(key: string)
      modifies this`pixKeyText
      ensures pixKeyText == KeyPrefix + key
    {
      pixKeyText := KeyPrefix + key;
    }
  }
}
