/**
 * The input part of the viewer's frame loop: cursor tracking while the left button is
 * held, mouse look in orbit mode (through the camera) or in free-fly mode (yaw and pitch
 * changed directly, pitch clamped to +-89 degrees), wheel zoom clamped to between 1.1
 * and 20 planet radii, the movement speed tied to the orbit radius, and the arrow-key
 * zoom. The flight mode's own camera, keyboard movement and rendering are not modelled.
 */
module FrameLoop {
  import opened Glm
  import opened Cameras
  import opened Windows

  const PlanetRadius: real := 6371.0
  const BaseSpeed: real := 0.2
  /** Radius change per unit of accumulated scroll. */
  const ZoomFactor: real := 0.1 * PlanetRadius
  const MinZoom: real := PlanetRadius * 1.1
  const MaxZoom: real := PlanetRadius * 20.0
  /** Degrees of turn per pixel of free-fly mouse look. */
  const LookSensitivity: real := 0.2
  const FreeFlyPitchLimit: real := 89.0
  /** The scroll amounts the up and down arrow keys pass to the camera each frame. */
  const ArrowKeyScroll: real := 0.01

  function Min(a: real, b: real): real {
    if b < a then b else a
  }

  function Max(a: real, b: real): real {
    if a < b then b else a
  }

  /** max(minVal, min(val, maxVal)): val held within [minVal, maxVal] when that range is not empty. */
  function Clamp(val: real, minVal: real, maxVal: real): (r: real)
    ensures minVal <= maxVal ==> minVal <= r <= maxVal
    ensures minVal <= val <= maxVal ==> r == val
    ensures r == val || r == minVal || r == maxVal
    ensures maxVal < minVal ==> r == minVal
  {
    Max(minVal, Min(val, maxVal))
  }

  /** Clamping twice is clamping once. */
  lemma ClampIdempotent(val: real, minVal: real, maxVal: real)
    requires minVal <= maxVal
    ensures Clamp(Clamp(val, minVal, maxVal), minVal, maxVal) == Clamp(val, minVal, maxVal)
  {
  }

  /** Clamping keeps the order of values. */
  lemma ClampMonotone(v1: real, v2: real, minVal: real, maxVal: real)
    requires v1 <= v2
    ensures Clamp(v1, minVal, maxVal) <= Clamp(v2, minVal, maxVal)
  {
  }

  /** The radius after the wheel step: unchanged without scroll, else shifted and clamped to the zoom range. */
  function ZoomedRadius(radius: real, scroll: real): (r: real)
    ensures scroll != 0.0 ==> MinZoom <= r <= MaxZoom
    ensures scroll == 0.0 ==> r == radius
  {
    if scroll == 0.0 then radius else Clamp(radius - scroll * ZoomFactor, MinZoom, MaxZoom)
  }

  /** The radius after the arrow keys: up zooms out by 0.1, then down zooms in by 0.1, floored at 1. */
  function KeyZoomedRadius(radius: real, upPressed: bool, downPressed: bool): (r: real)
    ensures r >= MinRadius || (!upPressed && !downPressed && r == radius)
    ensures upPressed && !downPressed && radius >= MinRadius ==> r == radius + ScrollStep * ArrowKeyScroll
  {
    var r := if upPressed then ScrolledRadius(radius, -ArrowKeyScroll) else radius;
    if downPressed then ScrolledRadius(r, ArrowKeyScroll) else r
  }

  /**
   * The arrow keys are not held to the zoom range: from the nearest wheel zoom, the down
   * key brings the camera inside 1.1 planet radii.
   */
  lemma DownKeyPassesZoomFloor()
    ensures KeyZoomedRadius(MinZoom, false, true) < MinZoom
  {
  }

  class FrameState {
    const camera: Camera
    /** The wheel offset accumulated since the last frame. */
    var scrollYOffset: real
    var cameraSpeed: real
    var lastX: real
    var lastY: real
    var firstMouse: bool
    var orbitMode: bool
    var avionMode: bool
    var cameraFront: Vec3

    /** The state before the first frame: orbiting at two planet radii, nothing scrolled. */
    constructor (math: MathLib)
      ensures camera.radius == PlanetRadius * 2.0 && camera.yaw == 0.0 && camera.pitch == 0.0
      ensures camera.target == Zero && camera.Placed()
      ensures cameraSpeed == BaseSpeed * camera.radius && scrollYOffset == 0.0
      ensures lastX == 0.0 && lastY == 0.0 && firstMouse && orbitMode && !avionMode
    {
      camera := new Camera(math, PlanetRadius * 2.0, 0.0, 0.0, Zero);
      scrollYOffset := 0.0;
      cameraSpeed := BaseSpeed * (PlanetRadius * 2.0);
      lastX := 0.0;
      lastY := 0.0;
      firstMouse := true;
      orbitMode := true;
      avionMode := false;
      cameraFront := Vec3(0.0, 0.0, -1.0);
    }

    /** The wheel callback adds its offset to the accumulator. */
    method ScrollCallback(xoffset: real, yoffset: real)
      modifies this`scrollYOffset
      ensures scrollYOffset == old(scrollYOffset) + yoffset
    {
      scrollYOffset := scrollYOffset + yoffset;
    }

    /**
     * Cursor tracking for one frame: with the left button held the offset is the cursor's
     * move since the last frame (none the first time); without it the offset is zero.
     * Either way the cursor position is remembered.
     */
    method TrackMouse(xpos: real, ypos: real, leftPressed: bool) returns (dx: real, dy: real)
      modifies this`lastX, this`lastY, this`firstMouse
      ensures leftPressed ==> Offset(dx, dy) == CursorOffset(old(firstMouse), old(lastX), old(lastY), xpos, ypos)
      ensures leftPressed ==> !firstMouse
      ensures !leftPressed ==> dx == 0.0 && dy == 0.0 && firstMouse == old(firstMouse)
      ensures lastX == xpos && lastY == ypos
    {
      dx, dy := 0.0, 0.0;
      if leftPressed {
        if firstMouse {
          lastX, lastY := xpos, ypos;
          firstMouse := false;
        }
        dx := xpos - lastX;
        dy := lastY - ypos;
      }
      lastX, lastY := xpos, ypos;
    }

    /**
     * Free-fly mouse look: with the left button held, yaw and pitch move by a fifth of the
     * offset and pitch is clamped to [-89, 89]; the view direction follows the angles.
     */
    method FreeFlyLook(dx: real, dy: real, leftPressed: bool)
      modifies camera`yaw, camera`pitch, this`cameraFront
      ensures leftPressed ==>
                && camera.yaw == old(camera.yaw) + dx * LookSensitivity
                && camera.pitch == Clamp(old(camera.pitch) + dy * LookSensitivity, -FreeFlyPitchLimit, FreeFlyPitchLimit)
                && -FreeFlyPitchLimit <= camera.pitch <= FreeFlyPitchLimit
      ensures !leftPressed ==> camera.yaw == old(camera.yaw) && camera.pitch == old(camera.pitch)
      ensures cameraFront == FrontOf(camera.math, camera.yaw, camera.pitch)
    {
      if leftPressed {
        camera.yaw := camera.yaw + dx * LookSensitivity;
        camera.pitch := camera.pitch + dy * LookSensitivity;
        camera.pitch := Clamp(camera.pitch, -FreeFlyPitchLimit, FreeFlyPitchLimit);
      }
      cameraFront := FrontOf(camera.math, camera.yaw, camera.pitch);
    }

    /**
     * The wheel step: an accumulated offset moves the radius by 0.1 planet radii per unit,
     * clamped to [1.1 R, 20 R], re-places the camera and resets the accumulator.
     */
    method Zoom()
      modifies camera`radius, camera`position, camera`direction, this`scrollYOffset
      ensures camera.radius == ZoomedRadius(old(camera.radius), old(scrollYOffset))
      ensures scrollYOffset == 0.0
      ensures old(scrollYOffset) != 0.0 ==> camera.Placed()
      ensures old(scrollYOffset) == 0.0 ==>
                camera.position == old(camera.position) && camera.direction == old(camera.direction)
    {
      if scrollYOffset != 0.0 {
        var zoomFactor := 0.1 * PlanetRadius;
        camera.radius := camera.radius - scrollYOffset * zoomFactor;
        camera.radius := Clamp(camera.radius, PlanetRadius * 1.1, PlanetRadius * 20.0);
        camera.UpdatePosition();
        scrollYOffset := 0.0;
      }
    }

    /** The movement speed follows the orbit radius. */
    method UpdateSpeed()
      modifies this`cameraSpeed
      ensures cameraSpeed == BaseSpeed * camera.radius
    {
      cameraSpeed := BaseSpeed * camera.radius;
    }

    /** The arrow keys zoom through the camera's own scroll, up before down. */
    method ArrowKeyZoom(upPressed: bool, downPressed: bool)
      modifies camera`radius, camera`position, camera`direction
      ensures camera.radius == KeyZoomedRadius(old(camera.radius), upPressed, downPressed)
      ensures (upPressed || downPressed) ==> camera.Placed()
      ensures camera.yaw == old(camera.yaw) && camera.pitch == old(camera.pitch)
    {
      if upPressed {
        camera.ProcessMouseScroll(-ArrowKeyScroll);
      }
      if downPressed {
        camera.ProcessMouseScroll(ArrowKeyScroll);
      }
    }

    /**
     * The input part of one frame: track the cursor; turn the orbit camera, or look around
     * in free-fly mode (the flight mode's camera is not modelled); apply the wheel zoom;
     * set the speed from the zoomed radius; then apply the arrow keys.
     */
    method HandleInput(xpos: real, ypos: real, leftPressed: bool, upPressed: bool, downPressed: bool)
      modifies this`lastX, this`lastY, this`firstMouse, this`cameraFront, this`scrollYOffset, this`cameraSpeed,
               camera`yaw, camera`pitch, camera`radius, camera`position, camera`direction
      ensures lastX == xpos && lastY == ypos && scrollYOffset == 0.0
      ensures var zoomed := ZoomedRadius(old(camera.radius), old(scrollYOffset));
              cameraSpeed == BaseSpeed * zoomed && camera.radius == KeyZoomedRadius(zoomed, upPressed, downPressed)
      ensures !avionMode && !orbitMode && leftPressed ==> -FreeFlyPitchLimit <= camera.pitch <= FreeFlyPitchLimit
      ensures !avionMode && orbitMode && leftPressed ==> -PitchLimit <= camera.pitch <= PitchLimit
      ensures !leftPressed || avionMode ==> camera.yaw == old(camera.yaw) && camera.pitch == old(camera.pitch)
      ensures var o := CursorOffset(old(firstMouse), old(lastX), old(lastY), xpos, ypos);
              !avionMode && orbitMode && leftPressed ==>
                camera.yaw == old(camera.yaw) + o.dx && camera.pitch == TurnedPitch(old(camera.pitch), o.dy)
      ensures var o := CursorOffset(old(firstMouse), old(lastX), old(lastY), xpos, ypos);
              !avionMode && !orbitMode && leftPressed ==>
                && camera.yaw == old(camera.yaw) + o.dx * LookSensitivity
                && camera.pitch == Clamp(old(camera.pitch) + o.dy * LookSensitivity, -FreeFlyPitchLimit, FreeFlyPitchLimit)
      ensures !avionMode && !orbitMode ==> cameraFront == FrontOf(camera.math, camera.yaw, camera.pitch)
      ensures !avionMode && orbitMode ==> cameraFront == old(cameraFront)
    {
      var dx, dy := TrackMouse(xpos, ypos, leftPressed);
      if avionMode {
      } else if orbitMode {
        if leftPressed {
          camera.ProcessMouseMovement(dx, dy);
        }
      } else {
        FreeFlyLook(dx, dy, leftPressed);
      }
      Zoom();
      UpdateSpeed();
      ArrowKeyZoom(upPressed, downPressed);
    }
  }

  /** The free-fly view direction for the given yaw and pitch (degrees). */
  function FrontOf(math: MathLib, yaw: real, pitch: real): Vec3 {
    var radYaw := Radians(yaw);
    var radPitch := Radians(pitch);
    math.normalize(Vec3(math.cos(radPitch) * math.sin(radYaw), math.sin(radPitch),
                        math.cos(radPitch) * math.cos(radYaw)))
  }
}
