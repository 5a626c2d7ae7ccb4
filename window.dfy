/**
 * The application window's mouse tracking: the cursor callback turns absolute cursor
 * positions into offsets (the first event gives none), and forwards them to the
 * movement callback only while the left button is held; the wheel is forwarded to
 * the scroll callback. The registered callbacks are outside the model: a callback
 * call is returned as a value.
 */
module Windows {
  import opened Glfw

  datatype Option<T> = None | Some(value: T)

  /** A cursor offset: x to the right, y upwards. */
  datatype Offset = Offset(dx: real, dy: real)

  class Window {
    var width: int
    var height: int
    var firstMouse: bool
    var lastX: real
    var lastY: real
    var mousePressed: bool
    /** Whether a movement callback and a scroll callback are set. */
    var hasMovementCallback: bool
    var hasScrollCallback: bool

    /** A new window: the cursor assumed at the centre, no event seen yet, no button held. */
    constructor (width: int, height: int)
      ensures this.width == width && this.height == height
      ensures firstMouse && lastX == width as real / 2.0 && lastY == height as real / 2.0 && !mousePressed
      ensures !hasMovementCallback && !hasScrollCallback
    {
      this.width := width;
      this.height := height;
      firstMouse := true;
      lastX := width as real / 2.0;
      lastY := height as real / 2.0;
      mousePressed := false;
      hasMovementCallback := false;
      hasScrollCallback := false;
    }

    method SetMouseMovementCallback(present: bool)
      modifies this`hasMovementCallback
      ensures hasMovementCallback == present
    {
      hasMovementCallback := present;
    }

    method SetScrollCallback(present: bool)
      modifies this`hasScrollCallback
      ensures hasScrollCallback == present
    {
      hasScrollCallback := present;
    }

    /**
     * A cursor event at (xpos, ypos). The offset is from the last position (from the event
     * itself the first time) with y reversed; the last position becomes the event's. The
     * offset is forwarded exactly when the left button is held and a callback is set.
     */
    method MouseCallback(xpos: real, ypos: real) returns (forwarded: Option<Offset>)
      modifies this`firstMouse, this`lastX, this`lastY
      ensures !firstMouse && lastX == xpos && lastY == ypos
      ensures forwarded.Some? <==> mousePressed && hasMovementCallback
      ensures forwarded.Some? ==>
                forwarded.value == CursorOffset(old(firstMouse), old(lastX), old(lastY), xpos, ypos)
    {
      if firstMouse {
        lastX := xpos;
        lastY := ypos;
        firstMouse := false;
      }
      var xoffset := xpos - lastX;
      var yoffset := lastY - ypos;
      lastX := xpos;
      lastY := ypos;
      if mousePressed && hasMovementCallback {
        forwarded := Some(Offset(xoffset, yoffset));
      } else {
        forwarded := None;
      }
    }

    /** A button event: a left press sets the pressed flag, a left release clears it. */
    method MouseButtonCallback(button: int, action: int, mods: int)
      modifies this`mousePressed
      ensures button == MouseButtonLeft && action == Press ==> mousePressed
      ensures button == MouseButtonLeft && action == Release ==> !mousePressed
      ensures !(button == MouseButtonLeft && (action == Press || action == Release)) ==>
                mousePressed == old(mousePressed)
    {
      if button == MouseButtonLeft {
        if action == Press {
          mousePressed := true;
        } else if action == Release {
          mousePressed := false;
        }
      }
    }

    /** A wheel event forwards its vertical offset when a scroll callback is set. */
    method ScrollCallback(xoffset: real, yoffset: real) returns (forwarded: Option<real>)
      ensures forwarded == if hasScrollCallback then Some(yoffset) else None
    {
      if hasScrollCallback {
        forwarded := Some(yoffset);
      } else {
        forwarded := None;
      }
    }
  }

  /**
   * The offset a cursor event at (xpos, ypos) reports: none on the first event, otherwise
   * the move from (lastX, lastY) with y reversed.
   */
  function CursorOffset(first: bool, lastX: real, lastY: real, xpos: real, ypos: real): (o: Offset)
    ensures first ==> o == Offset(0.0, 0.0)
    ensures !first ==> lastX + o.dx == xpos && ypos + o.dy == lastY
  {
    if first then Offset(0.0, 0.0) else Offset(xpos - lastX, lastY - ypos)
  }

  /**
   * Offsets telescope: two cursor events in a row report together the move from the
   * position before the first to the second, whatever happened in between.
   */
  lemma OffsetsTelescope(lastX: real, lastY: real, x1: real, y1: real, x2: real, y2: real)
    ensures var o1 := CursorOffset(false, lastX, lastY, x1, y1);
            var o2 := CursorOffset(false, x1, y1, x2, y2);
            o1.dx + o2.dx == x2 - lastX && o1.dy + o2.dy == lastY - y2
  {
  }
}
