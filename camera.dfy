/**
 * The orbit camera: it sits on a sphere of the given radius around its target,
 * placed by yaw and pitch in degrees. Mouse movement turns it (pitch clamped to
 * +-89.9 degrees so it never flips over the pole), the scroll wheel moves it in and
 * out (never closer than 1 unit), and the keyboard does nothing in orbit mode.
 */
module Cameras {
  import opened Glm

  /** The largest pitch, in degrees, that mouse movement may reach. */
  const PitchLimit: real := 89.9

  /** The nearest the scroll wheel may bring the camera to its target. */
  const MinRadius: real := 1.0

  /** How far one unit of scroll moves the camera. */
  const ScrollStep: real := 10.0

  /** The point on the orbit sphere around target at the given radius, yaw and pitch (degrees). */
  function OrbitPosition(math: MathLib, target: Vec3, radius: real, yaw: real, pitch: real): Vec3 {
    var radYaw := Radians(yaw);
    var radPitch := Radians(pitch);
    Vec3(target.x + radius * math.cos(radPitch) * math.sin(radYaw),
         target.y + radius * math.sin(radPitch),
         target.z + radius * math.cos(radPitch) * math.cos(radYaw))
  }

  class Camera {
    const math: MathLib
    var radius: real
    var yaw: real
    var pitch: real
    var target: Vec3
    var position: Vec3
    var direction: Vec3

    /** The position is the orbit point of the angles and the radius, looking at the target. */
    ghost predicate Placed()
      reads this`radius, this`yaw, this`pitch, this`target, this`position, this`direction
    {
      && position == OrbitPosition(math, target, radius, yaw, pitch)
      && direction == math.normalize(Sub(target, position))
    }

    constructor (math: MathLib, radius: real, yaw: real, pitch: real, target: Vec3)
      ensures this.math == math && this.radius == radius && this.yaw == yaw && this.pitch == pitch
      ensures this.target == target && Placed()
    {
      this.math := math;
      this.radius := radius;
      this.yaw := yaw;
      this.pitch := pitch;
      this.target := target;
      new;
      UpdatePosition();
    }

    /** Recompute the position from the angles and the radius, and the view direction from it. */
    method UpdatePosition()
      modifies this`position, this`direction
      ensures Placed()
    {
      var radYaw := Radians(yaw);
      var radPitch := Radians(pitch);
      position := Vec3(target.x + radius * math.cos(radPitch) * math.sin(radYaw),
                       target.y + radius * math.sin(radPitch),
                       target.z + radius * math.cos(radPitch) * math.cos(radYaw));
      direction := math.normalize(Sub(target, position));
    }

    /**
     * Orbit a new target from where the camera is: the radius becomes the distance to it
     * and yaw and pitch the angles of the offset (the pitch's sine taken as offset.y over
     * that distance); the camera is then placed from them. The mode flag is not read.
     */
    method SetOrbitMode(orbit: bool, newTarget: Vec3)
      modifies this`target, this`radius, this`yaw, this`pitch, this`position, this`direction
      ensures var offset := Sub(old(position), newTarget);
        && target == newTarget
        && radius == math.length(offset)
        && yaw == Degrees(math.atan2(offset.x, offset.z))
        && pitch == Degrees(math.asin(FloatDiv(offset.y, radius)))
      ensures Placed()
    {
      target := newTarget;
      var offset := Sub(position, target);
      radius := math.length(offset);
      yaw := Degrees(math.atan2(offset.x, offset.z));
      pitch := Degrees(math.asin(FloatDiv(offset.y, radius)));
      UpdatePosition();
    }

    /**
     * Turn by (dx, dy) degrees: yaw moves freely, pitch moves by dy but is held within
     * [-89.9, 89.9], saturating at the nearer limit; the camera is then re-placed.
     */
    method ProcessMouseMovement(dx: real, dy: real)
      modifies this`yaw, this`pitch, this`position, this`direction
      ensures yaw == old(yaw) + dx && pitch == TurnedPitch(old(pitch), dy)
      ensures radius == old(radius) && target == old(target) && Placed()
    {
      yaw := yaw + dx;
      pitch := pitch + dy;
      if pitch > PitchLimit {
        pitch := PitchLimit;
      }
      if pitch < -PitchLimit {
        pitch := -PitchLimit;
      }
      UpdatePosition();
    }

    /** Keyboard movement: in orbit mode there is none, so no field changes. */
    method ProcessKeyboard(direction: string, deltaTime: real, speed: real)
      ensures radius == old(radius) && yaw == old(yaw) && pitch == old(pitch)
      ensures target == old(target) && position == old(position) && this.direction == old(this.direction)
    {
    }

    /**
     * Zoom by dy: the radius shrinks by 10 dy but never below 1, i.e. it becomes the
     * larger of 1 and the shifted radius; the camera is then re-placed.
     */
    method ProcessMouseScroll(dy: real)
      modifies this`radius, this`position, this`direction
      ensures radius == ScrolledRadius(old(radius), dy)
      ensures yaw == old(yaw) && pitch == old(pitch) && target == old(target) && Placed()
    {
      radius := radius - dy * ScrollStep;
      if radius < MinRadius {
        radius := MinRadius;
      }
      UpdatePosition();
    }
  }

  /**
   * Pitch after a mouse movement: the shifted pitch when it is within the limits, and
   * otherwise the limit it overshot.
   */
  function TurnedPitch(pitch: real, dy: real): (p: real)
    ensures -PitchLimit <= p <= PitchLimit
    ensures -PitchLimit <= pitch + dy <= PitchLimit ==> p == pitch + dy
    ensures pitch + dy > PitchLimit ==> p == PitchLimit
    ensures pitch + dy < -PitchLimit ==> p == -PitchLimit
  {
    var p := pitch + dy;
    var p := if p > PitchLimit then PitchLimit else p;
    if p < -PitchLimit then -PitchLimit else p
  }

  /** Turning is monotone in the pitch change: a larger dy never gives a smaller pitch. */
  lemma TurnedPitchMonotone(pitch: real, dy1: real, dy2: real)
    requires dy1 <= dy2
    ensures TurnedPitch(pitch, dy1) <= TurnedPitch(pitch, dy2)
  {
  }

  /** Radius after a scroll: the larger of 1 and the radius shifted by -10 dy. */
  function ScrolledRadius(radius: real, dy: real): (r: real)
    ensures r >= MinRadius && r >= radius - dy * ScrollStep
    ensures r == radius - dy * ScrollStep || r == MinRadius
  {
    var r := radius - dy * ScrollStep;
    if r < MinRadius then MinRadius else r
  }

  /**
   * Scrolling dy1 then dy2 ends where scrolling dy1 + dy2 at once does, as long as the
   * first step does not reach the floor.
   */
  lemma ScrollsCompose(radius: real, dy1: real, dy2: real)
    requires radius - dy1 * ScrollStep >= MinRadius
    ensures ScrolledRadius(ScrolledRadius(radius, dy1), dy2) == ScrolledRadius(radius, dy1 + dy2)
  {
  }

  /** Once at the floor, scrolling further in (dy >= 0) stays there. */
  lemma ScrollFloorAbsorbs(dy: real)
    requires dy >= 0.0
    ensures ScrolledRadius(MinRadius, dy) == MinRadius
  {
  }
}
