# Solar-system scene: camera zoom machine and orbit formulas

This project models the logic at the centre of a React/three.js solar-system scene. The rendering
layer is out of scope.

**The camera animation.** The `CameraAnimation` component exists in two versions:

- `src/scenes/CameraAnimation.jsx` moves the camera one unit from the selected body, at right angles
  to the line from the sun to the body, and then shifts it by (0.5, 0.5, 0).
- The copy inside `src/scenes/SolarSystem.jsx` adds the fixed offset (0, 0.5, 1.5) to the body's
  position.

Both versions run the same four-phase machine: `idle`, `zoomingIn`, `following`, `zoomingOut`.
The model covers all of its parts:

- the Escape key guard;
- the zoom-in and zoom-out effects and their trigger conditions;
- the progress counter, advanced by delta / duration and clamped to 1;
- the OrbitControls `enabled` flag;
- the interpolation between the pose saved before a zoom and the pose that follows the body.

The model has three layers:

- Module `CameraMachine` is a pure state machine. A `Variant` parameter selects which of the two
  components it models.
- Module `CameraAnimation` has the class `CameraController`. Its fields are the component's state,
  and the camera and the OrbitControls are objects it updates in place. Each of its methods is proved
  to change `State()` exactly as the matching machine step does.
- Module `CameraProperties` proves what the machine guarantees:
  - the invariant;
  - which frames throw;
  - the timing of the two zooms;
  - tracking in `following`;
  - the zoom-in/zoom-out round trip back to the saved pose.

**The orbit formulas.** These are the frame callbacks of the `Planet` component in
`src/scenes/SolarSystem.jsx` and in `src/scenes/Planet.jsx`:

- A planet is placed at `sun + (cos(t·speed)·d, 0, sin(t·speed)·d)`.
- In `Planet.jsx`, a moon with a mounted parent circles that parent instead.
- Any other body in `Planet.jsx` runs on an ellipse whose z radius is doubled.
- The planet table of `SolarSystem.jsx` is reproduced entry by entry.

**Inputs and state.** Coordinates are real numbers. `sqrt`, `cos` and `sin` enter as a `Math` record
of functions, and only the laws the proofs need are required of them:

- `sqrt` returns the non-negative root of a non-negative number;
- `cos 0 = 1` and `sin 0 = 0`;
- `sin² + cos² = 1`.

The frame delta of `THREE.Clock`, the elapsed time and the bodies' world positions are parameters.
React's effects and renders are explicit events: `ZoomInEffect`, `ZoomOutEffect`, `RenderPrevious`
(the `usePrevious` update), `MountControls`. A selection record is an object, so "a different
selection" means a different object, as `!==` does in JavaScript.

**The zoom-out start is not a snapshot.** Every zoom-out frame recomputes it from the previous
selection's current position, or from the origin when there is no previous selection
(`CameraAnimation.jsx:173-175`, `SolarSystem.jsx:376-378`); the model does the same
(`CameraMachine.ZoomOutStart`).

**Body positions are per frame.** Each frame event `Tick(delta, world)` carries its own `world`
function, so the bodies may move between frames, as they do in the scene. Every lemma about runs
of events holds for any such sequence of positions.

**The close button is modelled as written.** It clears the selection in every phase
(`SolarSystem.jsx:474-477`). `CameraMachine.Apply`, `Run`, `RunUntilIdle` and the controller's
`CloseButton` use it (`CameraMachine.CloseAsWritten`), and every lemma over `Apply` holds of the
program as written. The close button guarded like the Escape key (`CameraMachine.CloseStep`,
`CameraMachine.ApplyGuarded`) appears only in the correction under "Findings".

`Vector3.normalize` is modelled as three.js defines it: it divides by the length, or by 1 when the
length is 0. The origin start above needs this: the direction computed for a start at the origin is
the zero vector (`CameraOffset.OriginDesired`).

## Model

| member | source | states |
|---|---|---|
| Geometry.Lerp | src/scenes/CameraAnimation.jsx:140-150 | Reference definition of `lerpVectors`, with no contract of its own; `LerpEnds` states its properties. |
| Geometry.Normalize | src/scenes/CameraAnimation.jsx:109 | Reference definition of `normalize` (divide by the length, or by 1 for the zero vector), with no contract of its own; `NormalizeUnit` and `NormalizeOrigin` state its properties. |
| Geometry.LerpEnds | src/scenes/CameraAnimation.jsx:140-144 | `lerpVectors(a, b, α)` gives `a` at α = 0 and `b` at α = 1. In between, it moves from `a` by α times `b − a`. |
| Geometry.NormalizeUnit | src/scenes/CameraAnimation.jsx:109 | A non-zero vector has positive length, and normalizing it divides by that length and gives a unit vector. |
| Geometry.NormalizeOrigin | src/scenes/CameraAnimation.jsx:179 | Normalizing the zero vector gives the zero vector, as in three.js. |
| Orbit.OrbitPoint | src/scenes/SolarSystem.jsx:35-39 | Reference definition of the orbit position, with no contract of its own; `OnCircle`, `OnEllipse` and `StartsOnXAxis` state its properties. |
| Orbit.OnCircle | src/scenes/SolarSystem.jsx:35-39 | With equal radii `d`, the squared horizontal distance to the centre is `d²` at every angle. |
| Orbit.OnEllipse | src/scenes/Planet.jsx:37-38 | With radii `rx` and `rz`, the point satisfies ((x−cx)/rx)² + ((z−cz)/rz)² = 1. |
| Orbit.StartsOnXAxis | src/scenes/SolarSystem.jsx:35-39 | At angle 0 the point is `(cx + rx, cy, cz)`. |
| SolarSystem.Columns | src/scenes/SolarSystem.jsx:150-224 | The table's distance column is 1.25 … 4.25, and its speed column is 0.4 … 0.038, in table order. |
| SolarSystem.OrderedColumns | src/scenes/SolarSystem.jsx:150-224 | If each row's distance exceeds the previous row's, each speed is below the previous one, and the ends are positive, then every later row is farther out and slower, and all values are positive. |
| SolarSystem.PlanetTableOrdered | src/scenes/SolarSystem.jsx:150-224 | The table has eight planets, with distances strictly increasing, speeds strictly decreasing, and all of them positive. |
| SolarSystem.DistinctOrbitsNeverMeet | src/scenes/SolarSystem.jsx:35-39 | Two circular orbits with different radii about the same sun never give the same position. |
| SolarSystem.PlanetsApart | src/scenes/SolarSystem.jsx:32-40 | At any moment no two planets of the table share a position. At t = 0 each sits at `(sun.x + distance, sun.y, sun.z)`. |
| SolarSystem.Planet.constructor | src/scenes/SolarSystem.jsx:28-30 | The component keeps its table row and creates its own ref, which starts unmounted. |
| SolarSystem.Planet.OnFrame | src/scenes/SolarSystem.jsx:32-41 | With the ref mounted, the object's position becomes the circle point for `elapsed·speed` and `distance` about the sun. With the ref unmounted, nothing is written. |
| SolarSystem.Planet.OnClick | src/scenes/SolarSystem.jsx:46-48 | A click selects a new record carrying exactly the planet's name, info, composition, orbitDetails and ref. |
| PlanetComponent.FramePosition | src/scenes/Planet.jsx:27-41 | Reference definition of the position a body's frame callback writes, with no contract of its own; the four lemmas below state its properties. |
| PlanetComponent.MoonCirclesParent | src/scenes/Planet.jsx:27-34 | A moon keeps its parent's y, and its squared horizontal distance to the parent is `distance²`. |
| PlanetComponent.SunBranchOnEllipse | src/scenes/Planet.jsx:35-41 | A body that is not a moon, or whose parent is not mounted, keeps the sun's y and lies on the ellipse with radii `d` (x) and `2d` (z). |
| PlanetComponent.ParentOnlyMovesMoons | src/scenes/Planet.jsx:27 | The parent's position is consulted only for a moon with a mounted parent. For any other body the result is the sun-branch position. |
| PlanetComponent.StartPositions | src/scenes/Planet.jsx:27-41 | At t = 0 a moon is at `(parent.x + d, parent.y, parent.z)`, and every other body is at `(sun.x + d, sun.y, sun.z)`. |
| PlanetComponent.Planet.constructor | src/scenes/Planet.jsx:20-21 | The body uses the forwarded ref when one is given, and otherwise a fresh local ref. |
| PlanetComponent.Planet.OnFrame | src/scenes/Planet.jsx:23-44 | With the ref mounted, the position becomes `FramePosition` of the parent's position as it was before the write. With the ref unmounted, nothing is written. |
| PlanetComponent.Planet.OnClick | src/scenes/Planet.jsx:49-51 | A click selects a new record carrying exactly name, info, composition, orbitDetails and the body's ref. |
| CameraOffset.UpVector | src/scenes/CameraAnimation.jsx:112-117 | The up vector is (1,0,0) exactly when the radial direction's y component has absolute value 1. Otherwise it is (0,1,0). |
| CameraOffset.OffsetDirection | src/scenes/CameraAnimation.jsx:108-122 | Reference definition of the offset direction, with no contract of its own; `OffsetDirectionUnitPerpendicular` states its properties. |
| CameraOffset.PerpendicularDesired | src/scenes/CameraAnimation.jsx:124-136 | Reference definition of the perpendicular variant's desired camera position, with no contract of its own; `DesiredOffset`, `CameraHalfAbove` and `OriginDesired` state its properties. |
| CameraOffset.FixedDesired | src/scenes/SolarSystem.jsx:345-346 | Reference definition of the fixed variant's desired camera position, with no contract of its own; `DesiredOffset` states its property. |
| CameraOffset.FallbackAvoidsParallel | src/scenes/CameraAnimation.jsx:114-122 | For a unit radial direction, the cross product with the chosen up vector is non-zero and perpendicular to the radial direction. |
| CameraOffset.OffsetDirectionUnitPerpendicular | src/scenes/CameraAnimation.jsx:108-122 | For a body away from the sun, the offset direction is a unit vector perpendicular to the sun-to-body line. |
| CameraOffset.CameraHalfAbove | src/scenes/CameraAnimation.jsx:127-133 | Off the vertical axis, the offset is horizontal, so the camera sits exactly 0.5 above the body. |
| CameraOffset.OriginDesired | src/scenes/CameraAnimation.jsx:173-195 | A zoom-out starting from the origin has a zero offset direction, so the camera starts at (0.5, 0.5, 0). |
| CameraMachine.Init | src/scenes/CameraAnimation.jsx:20-31 | Mounting starts `idle` at progress 0 with nothing selected. It saves the camera position, and the controls' target when the controls exist (the origin otherwise). The invariant holds exactly when the controls are absent or enabled. |
| CameraMachine.KeyDownStep | src/scenes/CameraAnimation.jsx:35-41 | Escape changes the state exactly when the phase is `following` or `idle` and something is selected. The only change is clearing the selection. Other keys change nothing. |
| CameraMachine.CloseAsWritten | src/scenes/SolarSystem.jsx:474-477 | Reference definition of the close button as written (clear the selection in every phase), with no contract of its own; `CloseDuringZoomInThrows` states its consequence. |
| CameraMachine.CloseStep | src/scenes/SolarSystem.jsx:474-477 | The corrected close button (see "Findings") acts exactly as Escape does. |
| CameraMachine.ClickStep | src/scenes/Planet.jsx:49-51 | Reference definition of a click (the selection becomes the clicked record), with no contract of its own; `ApplyPreservesInv` and `BusyKeepsSavedPose` cover it. |
| CameraMachine.RenderPreviousStep | src/scenes/CameraAnimation.jsx:8-14 | Reference definition of the `usePrevious` update, with no contract of its own; `ApplyPreservesInv` and `BusyKeepsSavedPose` cover it. |
| CameraMachine.ControlsMountedStep | src/scenes/SolarSystem.jsx:437-445 | Reference definition of the OrbitControls mounting (enabled, on the given target, only if none are mounted), with no contract of its own; `ApplyPreservesInv` covers it. |
| CameraMachine.Desired | src/scenes/CameraAnimation.jsx:124-136 | Reference definition dispatching to the two variants' desired positions, with no contract of its own; `DesiredOffset` states its properties. |
| CameraMachine.ZoomInStep | src/scenes/CameraAnimation.jsx:48-67 | The guard requires a selection different from the previous one, mounted controls and phase `idle`. When it holds, the step saves the camera position and the controls' target, enters `zoomingIn` at progress 0 and disables the controls. When it fails, nothing changes. |
| CameraMachine.ZoomOutStep | src/scenes/CameraAnimation.jsx:70-85 | The guard requires no selection, a previous selection, mounted controls and phase `following` or `idle`. When it holds, the step enters `zoomingOut` at progress 0, disables the controls and keeps the saved pose. When it fails, nothing changes. |
| CameraMachine.Advance | src/scenes/CameraAnimation.jsx:91-101 | Progress grows by delta / 1.0. On reaching 1 it is clamped to 1, the phase moves on, and the controls are enabled exactly when the next phase is `idle`. Below 1, phase and controls are unchanged. |
| CameraMachine.ZoomInFrame | src/scenes/CameraAnimation.jsx:90-157 | Reference definition of a zoom-in frame, with no contract of its own; `ZoomInFrameFacts`, `ZoomInArrives` and `ZoomInDeparts` state its properties. |
| CameraMachine.FollowFrame | src/scenes/SolarSystem.jsx:395-403 | Reference definition of a `following` frame, with no contract of its own; `FollowFrameFacts` and `FollowingTracks` state its properties. |
| CameraMachine.ZoomOutStart | src/scenes/CameraAnimation.jsx:173-175 | Reference definition of the zoom-out start (the previous selection's position in this frame, or the origin), with no contract of its own; `ZoomOutDeparts` states its role. |
| CameraMachine.ZoomOutFrame | src/scenes/CameraAnimation.jsx:158-210 | Reference definition of a zoom-out frame, with no contract of its own; `ZoomOutFrameFacts`, `ZoomOutLands` and `ZoomOutDeparts` state its properties. |
| CameraMachine.Frame | src/scenes/CameraAnimation.jsx:87-211 | Reference definition of the frame callback, with no contract of its own; `FramePreservesInv` and `FrameThrowsOnlyWithoutSelection` state its properties. |
| CameraMachine.Apply | src/scenes/CameraAnimation.jsx:34-211 | Reference definition of one event of the program as written, close button included, with no contract of its own; `ApplyPreservesInv` and `BusyKeepsSavedPose` state its properties. |
| CameraMachine.ApplyGuarded | src/scenes/SolarSystem.jsx:474-477 | Reference definition of one event of the corrected program, whose close button is `CloseStep`, with no contract of its own; `GuardedKeepsSelectionHeld` states its property. |
| CameraProperties.ZoomInFrameFacts | src/scenes/CameraAnimation.jsx:90-157 | With a selection, a zoom-in frame with a non-negative delta never throws and keeps the invariant, selection and saved pose. It reaches `following` with progress exactly 1 once progress + delta ≥ 1, and otherwise adds delta. |
| CameraProperties.FollowFrameFacts | src/scenes/SolarSystem.jsx:395-403 | A `following` frame keeps phase, progress, selection and saved pose. It throws exactly for the perpendicular variant with nothing selected. |
| CameraProperties.ZoomOutFrameFacts | src/scenes/CameraAnimation.jsx:158-210 | A zoom-out frame never throws. Once progress + delta ≥ 1 it reaches `idle` at progress 1 with the camera on the saved position and the controls enabled on the saved target. Otherwise it adds delta and stays in `zoomingOut`. |
| CameraProperties.ApplyPreservesInv | src/scenes/CameraAnimation.jsx:48-170 | Every event keeps the invariant. Progress stays in [0,1] and below 1 during a zoom. Outside `idle` the controls are mounted, and they are enabled exactly in `idle`. This holds for the program as written, close button included. |
| CameraProperties.FramePreservesInv | src/scenes/CameraAnimation.jsx:87-211 | Every frame with a non-negative delta keeps the invariant. |
| CameraProperties.RunPreservesInv | src/scenes/CameraAnimation.jsx:87-211 | Any sequence of events, including frames with non-negative deltas and their own body positions, keeps the invariant. |
| CameraProperties.FrameThrowsOnlyWithoutSelection | src/scenes/CameraAnimation.jsx:104-106 | Under the invariant, a frame throws exactly when nothing is selected and either the phase is `zoomingIn` (both variants) or the perpendicular variant is `following`. A zoom-out frame never throws. |
| CameraProperties.FollowingStays | src/scenes/CameraAnimation.jsx:151-155 | With a selection, frames in `following` never throw and never leave `following`, whatever positions the bodies take frame by frame. |
| CameraProperties.IdleStays | src/scenes/CameraAnimation.jsx:87-211 | Frames in `idle` change nothing. |
| CameraProperties.ZoomInTiming | src/scenes/CameraAnimation.jsx:91-101 | With a selection, after frames totalling Σ, each with its own body positions: the camera is `following` with progress 1 exactly when progress + Σ ≥ 1. Otherwise it is still zooming in with progress advanced by Σ. The controls stay disabled throughout. |
| CameraProperties.ZoomOutTiming | src/scenes/CameraAnimation.jsx:159-170 | After frames totalling Σ, each with its own body positions: the camera is `idle` with progress 1 and controls enabled exactly when progress + Σ ≥ 1. Otherwise it is still zooming out, progress advanced by Σ, controls disabled. |
| CameraProperties.ZoomInArrives | src/scenes/CameraAnimation.jsx:139-157 | With a selection, the frame completing the zoom-in puts the camera on the desired position and the target and look-at point on the body. |
| CameraProperties.FollowingTracks | src/scenes/CameraAnimation.jsx:151-157 | Every `following` frame puts the camera exactly on the desired position and the target and look-at point exactly on the body. |
| CameraProperties.DesiredOffset | src/scenes/SolarSystem.jsx:345-346 | Fixed variant: camera − body = (0, 0.5, 1.5). Perpendicular variant: after removing the (0.5, 0.5, 0) shift, camera − body is a unit vector perpendicular to the body's position. |
| CameraProperties.ZoomInDeparts | src/scenes/CameraAnimation.jsx:139-150 | With a selection, a zero-delta first frame of the zoom-in (progress 0) leaves the camera on the saved position and the target on the saved target. |
| CameraProperties.ZoomOutDeparts | src/scenes/SolarSystem.jsx:376-394 | A zero-delta first frame of the zoom-out (progress 0) puts the camera at the desired position for the previous body (or the origin), and the target on that point. |
| CameraProperties.ZoomOutLands | src/scenes/CameraAnimation.jsx:197-209 | The frame completing the zoom-out puts the camera on the saved position, and the target and look-at point on the saved target. It re-enables the controls. |
| CameraProperties.BusyKeepsSavedPose | src/scenes/CameraAnimation.jsx:56-57 | Outside `idle`, no event changes the saved pose. Any event that reaches `idle` lands on it. |
| CameraProperties.UntilIdleLands | src/scenes/CameraAnimation.jsx:158-209 | From any non-idle state, under any events of the program as written (frames carrying their own body positions), the first return to `idle` that no frame interrupted by throwing has the camera on the saved position and the controls enabled on the saved target. |
| CameraProperties.ZoomRoundTrip | src/scenes/CameraAnimation.jsx:56-57 | Once a zoom-in starts, whatever events of the program as written follow (the close button, clicks, keys, renders, frames in which the bodies move), the first return to `idle` that no frame interrupted by throwing restores the camera position and the controls exactly as they were before the zoom-in. |
| CameraProperties.CloseDuringZoomInThrows | src/scenes/SolarSystem.jsx:474-477 | The close button as written, pressed during `zoomingIn`, leaves a zoom-in with no selection: neither effect reacts after the next render, and the next frame throws. |
| CameraProperties.GuardedKeepsSelectionHeld | src/scenes/SolarSystem.jsx:474-477 | With the close button guarded like Escape, every event keeps the invariant and keeps a selection throughout `zoomingIn`, so by `FrameThrowsOnlyWithoutSelection` only a perpendicular `following` frame with nothing selected can throw. |
| CameraProperties.GuardedCloseKeepsZoomSafe | src/scenes/CameraAnimation.jsx:35-41 | With the Escape guard and a selection held through `zoomingIn`, closing during a zoom changes nothing, and the next frame does not throw. |
| CameraAnimation.CameraController.constructor | src/scenes/CameraAnimation.jsx:20-31 | The new controller's state is `Init` of the camera and the controls, and it is valid when the controls are absent or enabled. |
| CameraAnimation.CameraController.KeyDown | src/scenes/CameraAnimation.jsx:35-41 | The state becomes `KeyDownStep` of the old state, and validity is kept. |
| CameraAnimation.CameraController.Click | src/scenes/Planet.jsx:49-51 | The selection becomes the clicked record, and validity is kept. |
| CameraAnimation.CameraController.CloseButton | src/scenes/SolarSystem.jsx:474-477 | As written: the selection is cleared in every phase, the state becomes `CloseAsWritten` of the old state, and validity is kept. |
| CameraAnimation.CameraController.RenderPrevious | src/scenes/CameraAnimation.jsx:8-14 | The previous selection becomes the current one, and validity is kept. |
| CameraAnimation.CameraController.ZoomInEffect | src/scenes/CameraAnimation.jsx:48-67 | The state becomes `ZoomInStep` of the old state, with the controls object updated in place. Validity is kept. |
| CameraAnimation.CameraController.ZoomOutEffect | src/scenes/CameraAnimation.jsx:70-85 | The state becomes `ZoomOutStep` of the old state, with the controls object updated in place. Validity is kept. |
| CameraAnimation.CameraController.MountControls | src/scenes/SolarSystem.jsx:437-445 | The state becomes `ControlsMountedStep` of the old state. An unmounted ref gets a freshly allocated controls object, enabled on the given target; a mounted ref keeps the same object, unchanged. Validity is kept. |
| CameraAnimation.CameraController.OnFrame | src/scenes/CameraAnimation.jsx:87-211 | The state becomes the machine's `Frame` of the old state, and `crashed` is set exactly when that frame throws. Validity is kept for non-negative deltas. |
| CameraAnimation.CameraController.FrameZoomingIn | src/scenes/CameraAnimation.jsx:90-157 | Camera, controls and fields are updated in place to `ZoomInFrame` of the old state. |
| CameraAnimation.CameraController.FrameFollowing | src/scenes/SolarSystem.jsx:395-403 | Camera, controls and fields are updated in place to `FollowFrame` of the old state. |
| CameraAnimation.CameraController.FrameZoomingOut | src/scenes/CameraAnimation.jsx:158-210 | Camera, controls and fields are updated in place to `ZoomOutFrame` of the old state. |
| CameraAnimation.CameraController.Advance | src/scenes/CameraAnimation.jsx:91-101 | Progress, phase and the controls' flag are updated in place to `Advance` of the old state. |

## Left out

- Rendering and assets are left out. This covers the canvas, lights, stars, the OBJ/GLTF loaders, the rocket and the asteroid-belt spin (`SolarSystem.jsx:55-63`, `76-103`, `227-231`). None of it bears on the modelled logic.
- `OrbitControls.update()` on zoom-out completion (`CameraAnimation.jsx:168`) is a library call. Only the controls' `enabled` flag and `target` are modelled.
- `THREE.Clock` is not modelled. The frame delta and the elapsed time are parameters. A negative delta is allowed by the machine. The lemmas about frames and runs require non-negative deltas, as a clock delivers; `ZoomInDeparts` and `ZoomOutDeparts` take a delta of exactly 0. `clock.start()` in the effects only resets the clock, so it is not modelled.
- React scheduling is not modelled. Effects, `usePrevious` and renders are explicit events that the caller orders, and the state `setZoomState` sets is visible to the next event. The frame callback keeps the phase it was rendered with, so the frame that completes a zoom-in still interpolates; the model does the same.
- `getWorldPosition` is the `world` function from selections to positions. It is not tied to `Object3D.position`, because the scene's group hierarchy is not modelled.
- CameraAnimation.CameraController.OnFrame: a frame throws a TypeError when a selection's `ref.current` is unmounted. This is not modelled, because positions come from `world`. Only the null-selection and missing-controls throws are modelled.
- Floating point is not modelled: values are real numbers. The `=== 1` test of `CameraAnimation.jsx:115` is decided exactly over the reals.
- The close button's `setActiveTab('overview')` (`SolarSystem.jsx:476`) is user-interface state and is left out.
- The key listener's registration and removal (`CameraAnimation.jsx:43-44`) are left out. `KeyDown` is the listener itself.
- `src/scenes/EarthSystem.jsx` only wires data into `Planet`, which reads only `distance`. It is not part of this model.

## Findings

| source | as written | input that shows it | evidently intended | confidence | as-written member | corrected member |
|---|---|---|---|---|---|---|
| src/scenes/SolarSystem.jsx:474-477 | The close button clears the selection in every phase, unlike the Escape key, which is ignored while a zoom runs. During `zoomingIn`, neither effect reacts: zoom-in needs `idle`, and zoom-out needs `following` or `idle`. The next frame then reads `ref` of the null selection (`SolarSystem.jsx:345`, `CameraAnimation.jsx:106`) and throws. | Select a planet, then press the close button before the one-second zoom-in ends. | The close button is guarded like Escape: ignored in `zoomingIn` and `zoomingOut`. | not executed | CameraProperties.CloseDuringZoomInThrows | CameraProperties.GuardedKeepsSelectionHeld |
