/**
 * Stand-in for the rounded-rectangle primitive the widgets and popups are
 * built from: a box that reports, through `boxWidth`/`boxHeight`, the size
 * it was last given, and a position in its parent's space.
 */
module Box {

  /** Size and position of a box, as one value. */
  datatype BoxState = BoxState(width: real, height: real, x: real, y: real)

  class RoundedBox {
    var boxWidth: real
    var boxHeight: real
    var x: real
    var y: real

    constructor (width: real, height: real)
      ensures boxWidth == width && boxHeight == height && x == 0.0 && y == 0.0
    {
      boxWidth, boxHeight := width, height;
      x, y := 0.0, 0.0;
    }

    /** The box's current size and position. */
    function State(): BoxState
      reads this
    {
      BoxState(boxWidth, boxHeight, x, y)
    }

    /** Resize: every later read of `boxWidth`/`boxHeight` sees the new size. */
    method SetSize(width: real, height: real)
      modifies this
      ensures State() == old(State()).(width := width, height := height)
    {
      boxWidth, boxHeight := width, height;
    }

    /** Move the box within its parent (`position.set`). */
    method SetPosition(nx: real, ny: real)
      modifies this
      ensures State() == old(State()).(x := nx, y := ny)
    {
      x, y := nx, ny;
    }
  }
}
