/**
 * The `CameraAnimation` component as written, close button included: the zoom state, the progress ref and the
 * two saved vectors live in one object, the camera and the OrbitControls are updated in place,
 * and every handler, effect and frame callback is a method. Each method is proved to do to
 * `State()` exactly what the matching step of module CameraMachine does, so every property proved
 * there holds of the controller.
 */
module CameraAnimation {
  import opened Geometry
  import opened SceneGraph
  import opened CameraMachine
  import opened CameraProperties

  /** The parts of three.js's OrbitControls the animation reads and writes. */
  class OrbitControls {
    var enabled: bool
    var target: Vec3

    /** OrbitControls start enabled. */
    constructor (target: Vec3)
      ensures enabled && this.target == target
    {
      enabled := true;
      this.target := target;
    }
  }

  /** `controlsRef`: null until the OrbitControls element mounts. */
  class ControlsRef {
    var current: OrbitControls?

    constructor ()
      ensures current == null
    {
      current := null;
    }
  }

  /** The camera from `useThree`: its position and the point it was last turned towards. */
  class Camera {
    var position: Vec3
    var lookAt: Vec3

    constructor (position: Vec3, lookAt: Vec3)
      ensures this.position == position && this.lookAt == lookAt
    {
      this.position := position;
      this.lookAt := lookAt;
    }
  }

  class CameraController {
    const variant: Variant
    const camera: Camera
    const controlsRef: ControlsRef
    var zoomState: Phase
    var zoomProgress: real
    var zoomOutCameraPosition: Vec3
    var zoomOutTarget: Vec3
    /** The selection prop, as the key and button handlers set it. */
    var selected: Selection?
    /** What `usePrevious` returned at the last render. */
    var previous: Selection?

    /** The controller's state as a value of the machine. */
    function State(): CamState
      reads this, camera, controlsRef, controlsRef.current
    {
      var controls := if controlsRef.current == null then None
        else Some(Controls(controlsRef.current.enabled, controlsRef.current.target));
      CamState(zoomState, zoomProgress, camera.position, camera.lookAt, controls,
        zoomOutCameraPosition, zoomOutTarget, selected, previous)
    }

    ghost predicate Valid()
      reads this, camera, controlsRef, controlsRef.current
    {
      Inv(State())
    }

    /** Mounting: idle, progress 0, the camera pose saved, and the controls' target if they are there. */
    constructor (variant: Variant, camera: Camera, controlsRef: ControlsRef)
      ensures this.variant == variant && this.camera == camera && this.controlsRef == controlsRef
      ensures State() == Init(camera.position, camera.lookAt,
        if controlsRef.current == null then None
        else Some(Controls(controlsRef.current.enabled, controlsRef.current.target)))
      ensures controlsRef.current == null || controlsRef.current.enabled ==> Valid()
    {
      this.variant := variant;
      this.camera := camera;
      this.controlsRef := controlsRef;
      zoomState := Idle;
      zoomProgress := 0.0;
      zoomOutCameraPosition := camera.position;
      zoomOutTarget := if controlsRef.current != null then controlsRef.current.target else Origin;
      selected := null;
      previous := null;
    }

    /** The window's keydown listener. */
    method KeyDown(key: string)
      modifies this
      ensures State() == KeyDownStep(old(State()), key)
      ensures old(Valid()) ==> Valid()
    {
      if key == "Escape" {
        if (zoomState == Following || zoomState == Idle) && selected != null {
          selected := null;
        }
      }
    }

    /** A click on a body selects the record it builds. */
    method Click(selection: Selection)
      modifies this
      ensures State() == ClickStep(old(State()), selection)
      ensures old(Valid()) ==> Valid()
    {
      selected := selection;
    }

    /** The info panel's close button: it clears the selection in every phase, unguarded. */
    method CloseButton()
      modifies this
      ensures State() == CloseAsWritten(old(State()))
      ensures old(Valid()) ==> Valid()
    {
      selected := null;
    }

    /** A render: `usePrevious` now hands out the selection of the render before. */
    method RenderPrevious()
      modifies this
      ensures State() == RenderPreviousStep(old(State()))
      ensures old(Valid()) ==> Valid()
    {
      previous := selected;
    }

    /** The zoom-in effect. */
    method ZoomInEffect()
      modifies this, controlsRef.current
      ensures State() == ZoomInStep(old(State()))
      ensures old(Valid()) ==> Valid()
    {
      if selected != null && previous != selected && controlsRef.current != null && zoomState == Idle {
        zoomOutCameraPosition := camera.position;
        zoomOutTarget := controlsRef.current.target;
        zoomState := ZoomingIn;
        zoomProgress := 0.0;
        controlsRef.current.enabled := false;
      }
    }

    /** The zoom-out effect. */
    method ZoomOutEffect()
      modifies this, controlsRef.current
      ensures State() == ZoomOutStep(old(State()))
      ensures old(Valid()) ==> Valid()
    {
      if selected == null && previous != null && controlsRef.current != null
        && (zoomState == Following || zoomState == Idle)
      {
        zoomState := ZoomingOut;
        zoomProgress := 0.0;
        controlsRef.current.enabled := false;
      }
    }

    /** The OrbitControls element mounts and fills `controlsRef`. */
    method MountControls(target: Vec3)
      modifies controlsRef
      ensures State() == ControlsMountedStep(old(State()), target)
      ensures old(controlsRef.current) == null ==> fresh(controlsRef.current)
      ensures old(controlsRef.current) != null ==> controlsRef.current == old(controlsRef.current)
      ensures old(Valid()) ==> Valid()
    {
      if controlsRef.current == null {
        controlsRef.current := new OrbitControls(target);
      }
    }

    /**
     * The frame callback. `delta` is the clock's reading, `world` gives each selection's body
     * position. `crashed` reports the TypeError the callback throws; the state is then the one
     * reached before the throw.
     */
    method OnFrame(delta: real, world: Selection -> Vec3, m: Math) returns (crashed: bool)
      modifies this, camera, controlsRef.current
      ensures var r := Frame(variant, old(State()), delta, world, m);
        State() == r.state && crashed == r.Crashed?
      ensures old(Valid()) && delta >= 0.0 ==> Valid()
    {
      ghost var s := State();
      if Valid() && delta >= 0.0 {
        FramePreservesInv(variant, s, delta, world, m);
      }
      if zoomState == ZoomingIn {
        crashed := FrameZoomingIn(delta, world, m);
      } else if zoomState == Following {
        crashed := FrameFollowing(world, m);
      } else if zoomState == ZoomingOut {
        crashed := FrameZoomingOut(delta, world, m);
      } else {
        crashed := false;
      }
    }

    /**
     * The callback while zooming in. Once progress reaches 1 the zoom state becomes `following`,
     * but the callback keeps the state it was rendered with, so this frame still interpolates.
     */
    method FrameZoomingIn(delta: real, world: Selection -> Vec3, m: Math) returns (crashed: bool)
      requires zoomState == ZoomingIn
      modifies this, camera, controlsRef.current
      ensures var r := ZoomInFrame(variant, old(State()), delta, world, m);
        State() == r.state && crashed == r.Crashed?
    {
      Advance(delta, Following);
      if selected == null {
        return true;
      }
      var p := world(selected);
      camera.position := Lerp(zoomOutCameraPosition, Desired(variant, p, m), zoomProgress);
      if controlsRef.current == null {
        return true;
      }
      controlsRef.current.target := Lerp(zoomOutTarget, p, zoomProgress);
      camera.lookAt := p;
      crashed := false;
    }

    /**
     * The callback while following. The perpendicular component reads the selection unguarded;
     * the fixed-offset one does nothing when there is none.
     */
    method FrameFollowing(world: Selection -> Vec3, m: Math) returns (crashed: bool)
      requires zoomState == Following
      modifies this, camera, controlsRef.current
      ensures var r := FollowFrame(variant, old(State()), world, m);
        State() == r.state && crashed == r.Crashed?
    {
      if selected == null {
        return variant == Perpendicular;
      }
      var p := world(selected);
      camera.position := Desired(variant, p, m);
      if controlsRef.current == null {
        return true;
      }
      controlsRef.current.target := p;
      camera.lookAt := p;
      crashed := false;
    }

    /** The callback while zooming out, from the previous selection (or the origin) back to the saved pose. */
    method FrameZoomingOut(delta: real, world: Selection -> Vec3, m: Math) returns (crashed: bool)
      requires zoomState == ZoomingOut
      modifies this, camera, controlsRef.current
      ensures var r := ZoomOutFrame(variant, old(State()), delta, world, m);
        State() == r.state && crashed == r.Crashed?
    {
      ghost var s := old(State());
      Advance(delta, Idle);
      ghost var s1 := CameraMachine.Advance(s, delta, Idle);
      assert State() == s1;
      var start := if previous != null then world(previous) else Origin;
      assert start == ZoomOutStart(s1, world);
      camera.position := Lerp(Desired(variant, start, m), zoomOutCameraPosition, zoomProgress);
      if controlsRef.current == null {
        return true;
      }
      controlsRef.current.target := Lerp(start, zoomOutTarget, zoomProgress);
      camera.lookAt := controlsRef.current.target;
      crashed := false;
    }

    /** Progress grows by delta / AnimationDuration and is clamped at 1, where the phase moves on. */
    method Advance(delta: real, next: Phase)
      modifies this, controlsRef.current
      ensures State() == CameraMachine.Advance(old(State()), delta, next)
    {
      zoomProgress := zoomProgress + delta / AnimationDuration;
      if zoomProgress >= 1.0 {
        zoomProgress := 1.0;
        zoomState := next;
        if controlsRef.current != null {
          controlsRef.current.enabled := next == Idle;
        }
      }
    }
  }
}
