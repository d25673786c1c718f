/**
 * The tooltip of the bubble map (js/vis-tooltip.js): shown with some
 * content, hidden, and moved next to the pointer while staying inside the
 * container horizontally and preferring the space above the pointer.
 */
module TooltipView {
  import opened Common

  /** The size of a bounding client rectangle. */
  datatype Rect = Rect(width: real, height: real)

  /** The vertical distance between the pointer and the tooltip. */
  const Offset := 8.0

  /**
   * The tooltip's left edge: centred on the pointer, moved right to the
   * container's left edge or left to its right edge when it would stick out.
   */
  function HorizontalPosition(px: real, tooltipWidth: real, containerWidth: real): (x: real)
    ensures var centred := px - tooltipWidth / 2.0;
      && (0.0 <= centred && centred + tooltipWidth <= containerWidth ==> x == centred)
      && (centred < 0.0 ==> x == 0.0)
      && (0.0 <= centred && centred + tooltipWidth > containerWidth ==> x + tooltipWidth == containerWidth)
      && (tooltipWidth <= containerWidth ==> 0.0 <= x && x + tooltipWidth <= containerWidth)
  {
    var centred := px - tooltipWidth / 2.0;
    if centred < 0.0 then 0.0
    else if centred + tooltipWidth > containerWidth then containerWidth - tooltipWidth
    else centred
  }

  /**
   * The tooltip's top edge: above the pointer, 8 pixels clear of it, when
   * that leaves it below the container's top; otherwise 8 pixels below
   * the pointer.
   */
  function VerticalPosition(py: real, tooltipHeight: real): (y: real)
    ensures py - tooltipHeight - Offset >= 0.0 ==> y + tooltipHeight + Offset == py
    ensures py - tooltipHeight - Offset < 0.0 ==> y == py + Offset
    ensures py >= 0.0 ==> y >= 0.0
  {
    if py - tooltipHeight - Offset < 0.0 then py + Offset else py - (tooltipHeight + Offset)
  }

  /**
   * The tooltip element. `containerRect` and `tooltipRect` are the
   * rectangles measured by the last `Show`; `position` is the last
   * `translate` applied.
   */
  class Tooltip<C> {
    var visible: bool
    var content: Option<C>
    var containerRect: Option<Rect>
    var tooltipRect: Option<Rect>
    var position: Option<(real, real)>

    constructor ()
      ensures !visible && content.None?
      ensures containerRect.None? && tooltipRect.None? && position.None?
    {
      visible := false;
      content := None;
      containerRect := None;
      tooltipRect := None;
      position := None;
    }

    /** Sets the content, makes the tooltip visible and measures both rectangles. */
    method Show(html: C, container: Rect, box: Rect)
      modifies this`visible, this`content, this`containerRect, this`tooltipRect
      ensures visible && content == Some(html)
      ensures containerRect == Some(container) && tooltipRect == Some(box)
    {
      content := Some(html);
      visible := true;
      containerRect := Some(container);
      tooltipRect := Some(box);
    }

    method Hide()
      modifies this`visible
      ensures !visible
    {
      visible := false;
    }

    /**
     * Places the tooltip for a pointer at (`px`, `py`) in the container.
     * Before any `Show` there are no rectangles and the source throws; that
     * outcome is `ok == false`, with nothing changed.
     */
    method Move(px: real, py: real) returns (ok: bool)
      modifies this`position
      ensures ok <==> containerRect.Some? && tooltipRect.Some?
      ensures ok ==> position == Some((
        HorizontalPosition(px, tooltipRect.value.width, containerRect.value.width),
        VerticalPosition(py, tooltipRect.value.height)))
      ensures !ok ==> position == old(position)
    {
      if containerRect.None? || tooltipRect.None? {
        return false;
      }
      var t, e := tooltipRect.value, containerRect.value;
      var x, y := px, py;
      x := x - t.width / 2.0;
      if x < 0.0 {
        x := 0.0;
      } else if x + t.width > e.width {
        x := e.width - t.width;
      }
      if y - t.height - Offset < 0.0 {
        y := y + Offset;
      } else {
        y := y - (t.height + Offset);
      }
      position := Some((x, y));
      ok := true;
    }
  }
}
