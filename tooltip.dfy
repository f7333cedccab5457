/**
 * The hover tooltip: a visibility flag and a position, both render state.
 * Entering the trigger measures it and anchors the tip centred above it;
 * leaving hides the tip. The tip is rendered into the shared overlay only
 * while visible.
 */
module Tooltip {
  import opened Wrappers
  import Dom

  /** Viewport coordinates of the tip's anchor point. */
  datatype Position = Position(x: real, y: real)

  /** Vertical gap, in pixels, between the tip's anchor and the trigger's top edge. */
  const Gap: real := 10.0

  /** The anchor: horizontally centred on the trigger, ten pixels above its top edge. */
  function Anchor(rect: Dom.Rect): (p: Position)
    ensures p.x - rect.left == (rect.left + rect.width) - p.x
    ensures rect.top - p.y == Gap
  {
    Position(rect.left + rect.width / 2.0, rect.top - Gap)
  }

  /**
   * The anchor depends only on where the trigger is: moving the trigger
   * moves the anchor by the same offset, so two triggers at different places
   * each get a tip placed at their own position.
   */
  lemma AnchorFollowsTrigger(rect: Dom.Rect, dx: real, dy: real)
    ensures Anchor(Dom.Rect(rect.left + dx, rect.top + dy, rect.width, rect.height))
         == Position(Anchor(rect).x + dx, Anchor(rect).y + dy)
  {
  }

  /** A mounted tooltip. */
  class Tip {
    var isVisible: bool
    var position: Position

    /** Hidden, anchored at the origin. */
    constructor ()
      ensures !isVisible && position == Position(0.0, 0.0)
    {
      isVisible := false;
      position := Position(0.0, 0.0);
    }

    /**
     * handleMouseEnter. The trigger's box, when the trigger is mounted, is
     * what getBoundingClientRect measures at this moment.
     */
    method HandleMouseEnter(trigger: Option<Dom.Rect>)
      modifies this
      ensures isVisible
      ensures trigger.Some? ==> position == Anchor(trigger.value)
      ensures trigger.None? ==> position == old(position)
    {
      if trigger.Some? {
        position := Anchor(trigger.value);
      }
      isVisible := true;
    }

    /** handleMouseLeave: hides the tip and keeps the last position. */
    method HandleMouseLeave()
      modifies this
      ensures !isVisible && position == old(position)
    {
      isVisible := false;
    }

    /** What the tooltip renders into the overlay: the tip at its position while visible, nothing otherwise. */
    function Content(): (tip: Option<Position>)
      reads this
      ensures tip.Some? <==> isVisible
      ensures tip.Some? ==> tip.value == position
    {
      if isVisible then Some(position) else None
    }
  }
}
