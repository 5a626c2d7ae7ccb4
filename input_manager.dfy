/**
 * The scene's mouse handling: holding the middle button turns the orbit camera
 * by the cursor's movement, the wheel zooms it, and camera control can be switched
 * off, which also stops any turn in progress. The source keeps this state in static
 * fields shared by the callbacks; here it is one object.
 */
module InputManagers {
  import opened Glfw
  import opened Cameras

  class InputManager {
    /** The current scene's camera, or null before any scene is bound. */
    var scene: Camera?
    var rotating: bool
    var lastX: real
    var lastY: real
    var cameraControlEnabled: bool

    /** Control off never coexists with a turn in progress. */
    predicate Consistent()
      reads this`rotating, this`cameraControlEnabled
    {
      !cameraControlEnabled ==> !rotating
    }

    /** The static initial state: no scene, not rotating, cursor at (0, 0), control on. */
    constructor ()
      ensures scene == null && !rotating && lastX == 0.0 && lastY == 0.0 && cameraControlEnabled
      ensures Consistent()
    {
      scene := null;
      rotating := false;
      lastX := 0.0;
      lastY := 0.0;
      cameraControlEnabled := true;
    }

    /** Creating an input manager for a scene makes that scene's camera the current one. */
    method Bind(camera: Camera)
      modifies this`scene
      ensures scene == camera
    {
      scene := camera;
    }

    /**
     * A mouse button event, with (cursorX, cursorY) the cursor position GLFW reports.
     * Only the middle button counts, and only while control is on: a press starts a turn
     * from the cursor position, a release ends it; anything else changes nothing.
     */
    method MouseButtonCallback(button: int, action: int, mods: int, cursorX: real, cursorY: real)
      modifies this`rotating, this`lastX, this`lastY
      ensures button == MouseButtonMiddle && cameraControlEnabled && action == Press ==>
                rotating && lastX == cursorX && lastY == cursorY
      ensures button == MouseButtonMiddle && cameraControlEnabled && action == Release ==>
                !rotating && lastX == old(lastX) && lastY == old(lastY)
      ensures !(button == MouseButtonMiddle && cameraControlEnabled && (action == Press || action == Release)) ==>
                rotating == old(rotating) && lastX == old(lastX) && lastY == old(lastY)
      ensures old(Consistent()) ==> Consistent()
    {
      if button == MouseButtonMiddle {
        if !cameraControlEnabled {
          return;
        }
        if action == Press {
          rotating := true;
          lastX, lastY := cursorX, cursorY;
        } else if action == Release {
          rotating := false;
        }
      }
    }

    /**
     * A cursor move. While turning with control on and a scene bound, the camera turns by
     * the move (dx, -dy, screen y growing downwards) and the position is remembered;
     * otherwise nothing changes.
     */
    method CursorPosCallback(xpos: real, ypos: real)
      modifies this`lastX, this`lastY, scene
      ensures scene == old(scene)
      ensures old(rotating && scene != null && cameraControlEnabled) ==>
                && lastX == xpos && lastY == ypos
                && scene.yaw == old(scene.yaw) + (xpos - old(lastX))
                && scene.pitch == TurnedPitch(old(scene.pitch), -(ypos - old(lastY)))
                && scene.radius == old(scene.radius) && scene.target == old(scene.target)
      ensures !old(rotating && scene != null && cameraControlEnabled) ==>
                && lastX == old(lastX) && lastY == old(lastY)
                && (scene != null ==> scene.yaw == old(scene.yaw) && scene.pitch == old(scene.pitch)
                                      && scene.radius == old(scene.radius) && scene.position == old(scene.position))
    {
      if rotating && scene != null && cameraControlEnabled {
        var dx := xpos - lastX;
        var dy := ypos - lastY;
        scene.ProcessMouseMovement(dx, -dy);
        lastX := xpos;
        lastY := ypos;
      }
    }

    /** A wheel event zooms the current scene's camera, if any, by yoffset. */
    method ScrollCallback(xoffset: real, yoffset: real)
      modifies scene
      ensures scene != null ==>
                scene.radius == ScrolledRadius(old(scene.radius), yoffset)
                && scene.yaw == old(scene.yaw) && scene.pitch == old(scene.pitch)
    {
      if scene != null {
        scene.ProcessMouseScroll(yoffset);
      }
    }

    /** Switch camera control; switching it off also ends any turn. */
    method SetCameraControlEnabled(enabled: bool)
      modifies this`cameraControlEnabled, this`rotating
      ensures cameraControlEnabled == enabled
      ensures rotating == (enabled && old(rotating))
      ensures Consistent()
    {
      cameraControlEnabled := enabled;
      if !enabled {
        rotating := false;
      }
    }
  }
}
