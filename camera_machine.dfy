/**
 * The camera animation of CameraAnimation.jsx (perpendicular offset) and of the `CameraAnimation`
 * in SolarSystem.jsx (fixed offset), as a pure state machine. The React effects, the key and
 * button handlers and the frame callback are its events; the class in module CameraAnimation
 * runs the same machine on mutable objects.
 */
module CameraMachine {
  import opened Geometry
  import opened CameraOffset
  import opened SceneGraph

  datatype Phase = Idle | ZoomingIn | Following | ZoomingOut

  /** Which of the two components: offset at right angles to the sun line, or the fixed (0, 0.5, 1.5). */
  datatype Variant = Perpendicular | Fixed

  /** The part of OrbitControls the animation touches. */
  datatype Controls = Controls(enabled: bool, target: Vec3)

  const AnimationDuration: real := 1.0

  datatype CamState = CamState(
    phase: Phase,
    progress: real,
    camera: Vec3,               // camera.position
    lookAt: Vec3,               // the point last passed to camera.lookAt
    controls: Option<Controls>, // controlsRef.current, absent until OrbitControls mounts
    savedCamera: Vec3,          // zoomOutCameraPosition
    savedTarget: Vec3,          // zoomOutTarget
    selected: Selection?,       // the selected object
    previous: Selection?)       // what usePrevious returned at the last render

  /** The frame callback either finishes or throws a TypeError, leaving the state it had reached. */
  datatype Outcome = Ok(state: CamState) | Crashed(state: CamState)

  datatype Event =
    | KeyDown(key: string)
    | Click(selection: Selection)
    | CloseButton
    | RenderPrevious
    | ZoomInEffect
    | ZoomOutEffect
    | ControlsMounted(target: Vec3)
    | Tick(delta: real, world: Selection -> Vec3)  // world: each selection's body position in this frame

  /**
   * The state on mounting: idle at progress 0, nothing selected, the camera pose saved, and the
   * controls' target saved when the controls are already there (the origin otherwise).
   */
  function Init(camera: Vec3, lookAt: Vec3, controls: Option<Controls>): (s: CamState)
    ensures s.phase == Idle && s.progress == 0.0 && s.selected == null && s.previous == null
    ensures s.camera == camera && s.savedCamera == camera && s.controls == controls
    ensures s.savedTarget == (if controls.Some? then controls.value.target else Origin)
    ensures Inv(s) <==> controls.None? || controls.value.enabled
  {
    var target := if controls.Some? then controls.value.target else Origin;
    CamState(Idle, 0.0, camera, lookAt, controls, camera, target, null, null)
  }

  /** The facts every reachable state keeps. */
  ghost predicate Inv(s: CamState) {
    && 0.0 <= s.progress <= 1.0
    && (s.phase == ZoomingIn || s.phase == ZoomingOut ==> s.progress < 1.0)
    && (s.phase != Idle ==> s.controls.Some?)
    && (s.controls.Some? ==> (s.controls.value.enabled <==> s.phase == Idle))
  }

  /**
   * A zoom-in always has a body to fly to. The program as written does not keep this (its close
   * button clears the selection in any phase); with the close button guarded like Escape it holds.
   */
  ghost predicate SelectionHeld(s: CamState) {
    s.phase == ZoomingIn ==> s.selected != null
  }

  /** Escape clears the selection, but only in `following` or `idle` and only when something is selected. */
  function KeyDownStep(s: CamState, key: string): (r: CamState)
    ensures r != s <==> key == "Escape" && (s.phase == Following || s.phase == Idle) && s.selected != null
    ensures r != s ==> r == s.(selected := null)
  {
    if key == "Escape" && (s.phase == Following || s.phase == Idle) && s.selected != null then
      s.(selected := null)
    else
      s
  }

  /** The info panel's close button as the code has it: it clears the selection whatever the phase. */
  function CloseAsWritten(s: CamState): CamState {
    s.(selected := null)
  }

  /** The close button with the guard of the Escape key: ignored while a zoom is running. */
  function CloseStep(s: CamState): (r: CamState)
    ensures r == KeyDownStep(s, "Escape")
  {
    if (s.phase == Following || s.phase == Idle) && s.selected != null then s.(selected := null) else s
  }

  /** A click on a body selects the record it builds. */
  function ClickStep(s: CamState, selection: Selection): CamState {
    s.(selected := selection)
  }

  /** A render: usePrevious hands out the selection of the render before. */
  function RenderPreviousStep(s: CamState): CamState {
    s.(previous := s.selected)
  }

  predicate ZoomInGuard(s: CamState) {
    s.selected != null && s.previous != s.selected && s.controls.Some? && s.phase == Idle
  }

  /** The zoom-in effect: save the pose, start at progress 0, disable the controls. */
  function ZoomInStep(s: CamState): (r: CamState)
    ensures ZoomInGuard(s) ==>
      && r.phase == ZoomingIn && r.progress == 0.0
      && r.savedCamera == s.camera && r.savedTarget == s.controls.value.target
      && r.controls == Some(s.controls.value.(enabled := false))
      && r.camera == s.camera && r.lookAt == s.lookAt
      && r.selected == s.selected && r.previous == s.previous
    ensures !ZoomInGuard(s) ==> r == s
  {
    if ZoomInGuard(s) then
      s.(savedCamera := s.camera, savedTarget := s.controls.value.target,
         phase := ZoomingIn, progress := 0.0,
         controls := Some(s.controls.value.(enabled := false)))
    else
      s
  }

  predicate ZoomOutGuard(s: CamState) {
    s.selected == null && s.previous != null && s.controls.Some? && (s.phase == Following || s.phase == Idle)
  }

  /** The zoom-out effect: start at progress 0 and disable the controls; the saved pose is kept. */
  function ZoomOutStep(s: CamState): (r: CamState)
    ensures ZoomOutGuard(s) ==>
      && r.phase == ZoomingOut && r.progress == 0.0
      && r.controls == Some(s.controls.value.(enabled := false))
      && r.savedCamera == s.savedCamera && r.savedTarget == s.savedTarget
      && r.camera == s.camera && r.lookAt == s.lookAt
      && r.selected == s.selected && r.previous == s.previous
    ensures !ZoomOutGuard(s) ==> r == s
  {
    if ZoomOutGuard(s) then
      s.(phase := ZoomingOut, progress := 0.0, controls := Some(s.controls.value.(enabled := false)))
    else
      s
  }

  /** OrbitControls mounts, enabled, with the given target. */
  function ControlsMountedStep(s: CamState, target: Vec3): CamState {
    if s.controls.None? then s.(controls := Some(Controls(true, target))) else s
  }

  /** Where the camera is placed for a body at `p`. */
  function Desired(v: Variant, p: Vec3, m: Math): Vec3 {
    match v
    case Perpendicular => PerpendicularDesired(p, m)
    case Fixed => FixedDesired(p)
  }

  function SetEnabled(c: Option<Controls>, enabled: bool): Option<Controls> {
    if c.Some? then Some(c.value.(enabled := enabled)) else None
  }

  function SetTarget(c: Option<Controls>, target: Vec3): Option<Controls> {
    if c.Some? then Some(c.value.(target := target)) else None
  }

  /**
   * Progress grows by delta / AnimationDuration; once it reaches 1 it is clamped to 1, the phase
   * moves to `next` and the controls are enabled exactly when `next` is `Idle`.
   */
  function Advance(s: CamState, delta: real, next: Phase): (r: CamState)
    ensures s.progress + delta / AnimationDuration >= 1.0 ==>
      r.progress == 1.0 && r.phase == next && r.controls == SetEnabled(s.controls, next == Idle)
    ensures s.progress + delta / AnimationDuration < 1.0 ==>
      r.progress == s.progress + delta && r.phase == s.phase && r.controls == s.controls
    ensures r.selected == s.selected && r.previous == s.previous && r.camera == s.camera
    ensures r.savedCamera == s.savedCamera && r.savedTarget == s.savedTarget && r.lookAt == s.lookAt
  {
    var q := s.progress + delta / AnimationDuration;
    if q >= 1.0 then
      s.(progress := 1.0, phase := next, controls := SetEnabled(s.controls, next == Idle))
    else
      s.(progress := q)
  }

  /** A frame while zooming in: advance, then move camera and target part of the way to the body. */
  function ZoomInFrame(v: Variant, s: CamState, delta: real, world: Selection -> Vec3, m: Math): Outcome {
    var s1 := Advance(s, delta, Following);
    if s1.selected == null then
      Crashed(s1)
    else
      var p := world(s1.selected);
      var s2 := s1.(camera := Lerp(s1.savedCamera, Desired(v, p, m), s1.progress));
      if s2.controls.None? then
        Crashed(s2)
      else
        Ok(s2.(controls := SetTarget(s2.controls, Lerp(s2.savedTarget, p, s2.progress)), lookAt := p))
  }

  /** A frame while following: camera on the desired position, target on the body. */
  function FollowFrame(v: Variant, s: CamState, world: Selection -> Vec3, m: Math): Outcome {
    if s.selected == null then
      if v == Perpendicular then Crashed(s) else Ok(s)
    else
      var p := world(s.selected);
      var s1 := s.(camera := Desired(v, p, m));
      if s1.controls.None? then
        Crashed(s1)
      else
        Ok(s1.(controls := SetTarget(s1.controls, p), lookAt := p))
  }

  /** Where the zoom-out starts: the previous object's position, or the origin when there is none. */
  function ZoomOutStart(s: CamState, world: Selection -> Vec3): Vec3 {
    if s.previous != null then world(s.previous) else Origin
  }

  /** A frame while zooming out: advance, then move camera and target part of the way back to the saved pose. */
  function ZoomOutFrame(v: Variant, s: CamState, delta: real, world: Selection -> Vec3, m: Math): Outcome {
    var s1 := Advance(s, delta, Idle);
    var start := ZoomOutStart(s1, world);
    var s2 := s1.(camera := Lerp(Desired(v, start, m), s1.savedCamera, s1.progress));
    if s2.controls.None? then
      Crashed(s2)
    else
      var target := Lerp(start, s2.savedTarget, s2.progress);
      Ok(s2.(controls := SetTarget(s2.controls, target), lookAt := target))
  }

  /** The frame callback. */
  function Frame(v: Variant, s: CamState, delta: real, world: Selection -> Vec3, m: Math): Outcome {
    match s.phase
    case Idle => Ok(s)
    case ZoomingIn => ZoomInFrame(v, s, delta, world, m)
    case Following => FollowFrame(v, s, world, m)
    case ZoomingOut => ZoomOutFrame(v, s, delta, world, m)
  }

  /** One event of the program as written; its close button is CloseAsWritten. */
  function Apply(v: Variant, s: CamState, e: Event, m: Math): Outcome {
    match e
    case KeyDown(key) => Ok(KeyDownStep(s, key))
    case Click(selection) => Ok(ClickStep(s, selection))
    case CloseButton => Ok(CloseAsWritten(s))
    case RenderPrevious => Ok(RenderPreviousStep(s))
    case ZoomInEffect => Ok(ZoomInStep(s))
    case ZoomOutEffect => Ok(ZoomOutStep(s))
    case ControlsMounted(target) => Ok(ControlsMountedStep(s, target))
    case Tick(delta, world) => Frame(v, s, delta, world, m)
  }

  /** One event of the corrected program: the same, except that the close button is CloseStep. */
  function ApplyGuarded(v: Variant, s: CamState, e: Event, m: Math): Outcome {
    if e.CloseButton? then Ok(CloseStep(s)) else Apply(v, s, e, m)
  }

  /** Frame deltas come from a clock and are never negative. */
  predicate ClockEvent(e: Event) {
    e.Tick? ==> e.delta >= 0.0
  }

  /** Runs the events in order, stopping at the first frame that throws. */
  function Run(v: Variant, s: CamState, events: seq<Event>, m: Math): Outcome
    decreases |events|
  {
    if events == [] then
      Ok(s)
    else
      match Apply(v, s, events[0], m)
      case Crashed(t) => Crashed(t)
      case Ok(t) => Run(v, t, events[1..], m)
  }

  /** Runs the events in order until the camera is back in `idle`. */
  function RunUntilIdle(v: Variant, s: CamState, events: seq<Event>, m: Math): Outcome
    decreases |events|
  {
    if events == [] || s.phase == Idle then
      Ok(s)
    else
      match Apply(v, s, events[0], m)
      case Crashed(t) => Crashed(t)
      case Ok(t) => RunUntilIdle(v, t, events[1..], m)
  }
}
