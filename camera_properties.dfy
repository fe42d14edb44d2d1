/** What the camera machine guarantees over single events and over runs of events. */
module CameraProperties {
  import opened Geometry
  import opened CameraOffset
  import opened SceneGraph
  import opened CameraMachine

  /** A frame while zooming in advances the progress, keeps the selection and the saved pose, and never throws. */
  lemma ZoomInFrameFacts(v: Variant, s: CamState, delta: real, world: Selection -> Vec3, m: Math)
    requires Inv(s) && s.phase == ZoomingIn && s.selected != null && delta >= 0.0
    ensures var r := ZoomInFrame(v, s, delta, world, m);
      && r.Ok? && Inv(r.state)
      && r.state.selected == s.selected && r.state.previous == s.previous
      && r.state.savedCamera == s.savedCamera && r.state.savedTarget == s.savedTarget
      && (s.progress + delta >= 1.0 ==> r.state.phase == Following && r.state.progress == 1.0)
      && (s.progress + delta < 1.0 ==> r.state.phase == ZoomingIn && r.state.progress == s.progress + delta)
  {
  }

  /** A frame while following changes neither the phase nor the progress; it throws only as FrameThrowsOnlyWithoutSelection says. */
  lemma FollowFrameFacts(v: Variant, s: CamState, world: Selection -> Vec3, m: Math)
    requires Inv(s) && s.phase == Following
    ensures var r := FollowFrame(v, s, world, m);
      && Inv(r.state)
      && (r.Crashed? <==> v == Perpendicular && s.selected == null)
      && r.state.phase == Following && r.state.progress == s.progress
      && r.state.selected == s.selected && r.state.previous == s.previous
      && r.state.savedCamera == s.savedCamera && r.state.savedTarget == s.savedTarget
  {
  }

  /** A frame while zooming out advances the progress, keeps the selection and the saved pose, and never throws. */
  lemma ZoomOutFrameFacts(v: Variant, s: CamState, delta: real, world: Selection -> Vec3, m: Math)
    requires Inv(s) && s.phase == ZoomingOut && delta >= 0.0
    ensures var r := ZoomOutFrame(v, s, delta, world, m);
      && r.Ok? && Inv(r.state)
      && r.state.selected == s.selected && r.state.previous == s.previous
      && r.state.savedCamera == s.savedCamera && r.state.savedTarget == s.savedTarget
      && (s.progress + delta >= 1.0 ==>
            && r.state.phase == Idle && r.state.progress == 1.0
            && r.state.camera == s.savedCamera && r.state.controls == Some(Controls(true, s.savedTarget)))
      && (s.progress + delta < 1.0 ==>
            r.state.phase == ZoomingOut && r.state.progress == s.progress + delta)
  {
    var s1 := Advance(s, delta, Idle);
    var start := ZoomOutStart(s1, world);
    LerpEnds(Desired(v, start, m), s1.savedCamera, s1.progress);
    LerpEnds(start, s1.savedTarget, s1.progress);
  }

  /** Every event keeps the invariant, given that frame deltas are not negative. */
  lemma ApplyPreservesInv(v: Variant, s: CamState, e: Event, m: Math)
    requires Inv(s) && ClockEvent(e)
    ensures Inv(Apply(v, s, e, m).state)
  {
    if e.Tick? {
      FramePreservesInv(v, s, e.delta, e.world, m);
    }
  }

  lemma FramePreservesInv(v: Variant, s: CamState, delta: real, world: Selection -> Vec3, m: Math)
    requires Inv(s) && delta >= 0.0
    ensures Inv(Frame(v, s, delta, world, m).state)
  {
    match s.phase
    case Idle =>
    case ZoomingIn =>
      if s.selected != null {
        ZoomInFrameFacts(v, s, delta, world, m);
      } else {
        var s1 := Advance(s, delta, Following);
        assert ZoomInFrame(v, s, delta, world, m) == Crashed(s1);
      }
    case Following => FollowFrameFacts(v, s, world, m);
    case ZoomingOut => ZoomOutFrameFacts(v, s, delta, world, m);
  }

  /**
   * Under the invariant a frame throws exactly when it reads a missing selection: zooming in
   * with nothing selected (both variants), or following with nothing selected in the
   * perpendicular variant. A zoom-out frame never throws.
   */
  lemma FrameThrowsOnlyWithoutSelection(v: Variant, s: CamState, delta: real, world: Selection -> Vec3, m: Math)
    requires Inv(s)
    ensures Frame(v, s, delta, world, m).Crashed? <==>
      s.selected == null && (s.phase == ZoomingIn || (v == Perpendicular && s.phase == Following))
  {
    match s.phase
    case Idle =>
    case ZoomingIn =>
      var s1 := Advance(s, delta, Following);
      assert s1.selected == s.selected && s1.controls.Some?;
    case Following => FollowFrameFacts(v, s, world, m);
    case ZoomingOut =>
      var s1 := Advance(s, delta, Idle);
      assert s1.controls.Some?;
  }

  lemma {:induction false} RunPreservesInv(v: Variant, s: CamState, events: seq<Event>, m: Math)
    requires Inv(s)
    requires forall i :: 0 <= i < |events| ==> ClockEvent(events[i])
    ensures Inv(Run(v, s, events, m).state)
    decreases |events|
  {
    if events != [] {
      ApplyPreservesInv(v, s, events[0], m);
      match Apply(v, s, events[0], m)
      case Crashed(t) =>
      case Ok(t) =>
        RunPreservesInv(v, t, events[1..], m);
    }
  }

  function Sum(deltas: seq<real>): real
    decreases |deltas|
  {
    if deltas == [] then 0.0 else deltas[0] + Sum(deltas[1..])
  }

  lemma {:induction false} SumNonNegative(deltas: seq<real>)
    requires forall i :: 0 <= i < |deltas| ==> deltas[i] >= 0.0
    ensures Sum(deltas) >= 0.0
    decreases |deltas|
  {
    if deltas != [] {
      SumNonNegative(deltas[1..]);
    }
  }

  /** One frame event per delta, the i-th frame seeing the body positions `worlds[i]`. */
  function Ticks(deltas: seq<real>, worlds: seq<Selection -> Vec3>): (r: seq<Event>)
    requires |worlds| == |deltas|
    ensures |r| == |deltas|
    ensures forall i :: 0 <= i < |r| ==> r[i] == Tick(deltas[i], worlds[i])
    decreases |deltas|
  {
    if deltas == [] then [] else [Tick(deltas[0], worlds[0])] + Ticks(deltas[1..], worlds[1..])
  }

  lemma TicksSplit(deltas: seq<real>, worlds: seq<Selection -> Vec3>)
    requires |worlds| == |deltas| && deltas != []
    ensures Ticks(deltas, worlds)[0] == Tick(deltas[0], worlds[0])
    ensures Ticks(deltas, worlds)[1..] == Ticks(deltas[1..], worlds[1..])
  {
  }

  /** In `following` with a selection, frames keep following and the progress stays put. */
  lemma {:induction false} FollowingStays(v: Variant, s: CamState, deltas: seq<real>, worlds: seq<Selection -> Vec3>, m: Math)
    requires Inv(s) && s.phase == Following && s.selected != null
    requires |worlds| == |deltas|
    ensures var r := Run(v, s, Ticks(deltas, worlds), m);
      && r.Ok? && r.state.phase == Following && r.state.progress == s.progress
      && r.state.selected == s.selected && Inv(r.state)
    decreases |deltas|
  {
    if deltas != [] {
      TicksSplit(deltas, worlds);
      var t := Frame(v, s, deltas[0], worlds[0], m).state;
      FollowingStays(v, t, deltas[1..], worlds[1..], m);
    }
  }

  /** In `idle`, frames change nothing. */
  lemma {:induction false} IdleStays(v: Variant, s: CamState, deltas: seq<real>, worlds: seq<Selection -> Vec3>, m: Math)
    requires s.phase == Idle
    requires |worlds| == |deltas|
    ensures Run(v, s, Ticks(deltas, worlds), m) == Ok(s)
    decreases |deltas|
  {
    if deltas != [] {
      TicksSplit(deltas, worlds);
      IdleStays(v, s, deltas[1..], worlds[1..], m);
    }
  }

  /**
   * Zooming in lasts exactly one second of frame time: after frames totalling `Sum(deltas)`
   * the camera is `following` (progress clamped to 1) exactly when progress + Sum(deltas)
   * reaches 1, and otherwise still zooming in with the progress advanced by that total.
   * The controls stay disabled throughout.
   */
  lemma {:induction false} ZoomInTiming(v: Variant, s: CamState, deltas: seq<real>, worlds: seq<Selection -> Vec3>, m: Math)
    requires Inv(s) && s.phase == ZoomingIn && s.selected != null
    requires |worlds| == |deltas|
    requires forall i :: 0 <= i < |deltas| ==> deltas[i] >= 0.0
    ensures var r := Run(v, s, Ticks(deltas, worlds), m);
      && r.Ok? && Inv(r.state) && r.state.selected == s.selected
      && (s.progress + Sum(deltas) >= 1.0 ==> r.state.phase == Following && r.state.progress == 1.0)
      && (s.progress + Sum(deltas) < 1.0 ==>
            r.state.phase == ZoomingIn && r.state.progress == s.progress + Sum(deltas))
      && !r.state.controls.value.enabled
    decreases |deltas|
  {
    if deltas != [] {
      TicksSplit(deltas, worlds);
      SumNonNegative(deltas[1..]);
      ZoomInFrameFacts(v, s, deltas[0], worlds[0], m);
      var t := ZoomInFrame(v, s, deltas[0], worlds[0], m).state;
      assert Run(v, s, Ticks(deltas, worlds), m) == Run(v, t, Ticks(deltas[1..], worlds[1..]), m);
      assert Sum(deltas) == deltas[0] + Sum(deltas[1..]);
      if s.progress + deltas[0] >= 1.0 {
        FollowingStays(v, t, deltas[1..], worlds[1..], m);
      } else {
        ZoomInTiming(v, t, deltas[1..], worlds[1..], m);
      }
    }
  }

  /**
   * Zooming out also lasts one second of frame time: it ends in `idle` with progress 1 and the
   * controls enabled exactly when progress + Sum(deltas) reaches 1; until then the controls stay disabled.
   */
  lemma {:induction false} ZoomOutTiming(v: Variant, s: CamState, deltas: seq<real>, worlds: seq<Selection -> Vec3>, m: Math)
    requires Inv(s) && s.phase == ZoomingOut
    requires |worlds| == |deltas|
    requires forall i :: 0 <= i < |deltas| ==> deltas[i] >= 0.0
    ensures var r := Run(v, s, Ticks(deltas, worlds), m);
      && r.Ok? && Inv(r.state)
      && (s.progress + Sum(deltas) >= 1.0 ==>
            r.state.phase == Idle && r.state.progress == 1.0
            && r.state.controls.Some? && r.state.controls.value.enabled)
      && (s.progress + Sum(deltas) < 1.0 ==>
            && r.state.phase == ZoomingOut && r.state.progress == s.progress + Sum(deltas)
            && !r.state.controls.value.enabled)
    decreases |deltas|
  {
    if deltas != [] {
      TicksSplit(deltas, worlds);
      SumNonNegative(deltas[1..]);
      ZoomOutFrameFacts(v, s, deltas[0], worlds[0], m);
      var t := ZoomOutFrame(v, s, deltas[0], worlds[0], m).state;
      assert Run(v, s, Ticks(deltas, worlds), m) == Run(v, t, Ticks(deltas[1..], worlds[1..]), m);
      if s.progress + deltas[0] >= 1.0 {
        IdleStays(v, t, deltas[1..], worlds[1..], m);
      } else {
        ZoomOutTiming(v, t, deltas[1..], worlds[1..], m);
      }
    }
  }

  /** The frame that completes the zoom-in puts the camera on the desired position and the target on the body. */
  lemma ZoomInArrives(v: Variant, s: CamState, delta: real, world: Selection -> Vec3, m: Math)
    requires Inv(s) && s.phase == ZoomingIn && s.selected != null && s.progress + delta >= 1.0
    ensures var r := Frame(v, s, delta, world, m);
      && r.Ok? && r.state.phase == Following
      && r.state.camera == Desired(v, world(s.selected), m)
      && r.state.controls == Some(Controls(false, world(s.selected)))
      && r.state.lookAt == world(s.selected)
  {
  }

  /** Each frame in `following` puts the camera exactly on the desired position and the target on the body. */
  lemma FollowingTracks(v: Variant, s: CamState, delta: real, world: Selection -> Vec3, m: Math)
    requires Inv(s) && s.phase == Following && s.selected != null
    ensures var r := Frame(v, s, delta, world, m);
      && r.Ok? && r.state.phase == Following
      && r.state.camera == Desired(v, world(s.selected), m)
      && r.state.controls == Some(Controls(false, world(s.selected)))
      && r.state.lookAt == world(s.selected)
  {
  }

  /**
   * Where the following camera sits relative to the body: the fixed variant exactly (0, 0.5, 1.5)
   * away; the perpendicular variant, once the (0.5, 0.5, 0) shift is taken off, one unit away at right
   * angles to the sun-body line.
   */
  lemma DesiredOffset(v: Variant, p: Vec3, m: Math)
    requires SqrtLaw(m)
    requires v == Perpendicular ==> p != SunPosition
    ensures v == Fixed ==> Sub(Desired(v, p, m), p) == FixedOffset
    ensures v == Perpendicular ==>
      var d := Sub(Sub(Desired(v, p, m), p), Vec3(0.5, 0.5, 0.0));
      Dot(d, d) == 1.0 && Dot(d, p) == 0.0
  {
    if v == Perpendicular {
      OffsetDirectionUnitPerpendicular(p, m);
      var d := Sub(Sub(Desired(v, p, m), p), Vec3(0.5, 0.5, 0.0));
      assert d == OffsetDirection(p, m);
    }
  }

  /** The frame that completes the zoom-out lands on the saved pose and hands the controls back. */
  lemma ZoomOutLands(v: Variant, s: CamState, delta: real, world: Selection -> Vec3, m: Math)
    requires Inv(s) && s.phase == ZoomingOut && s.progress + delta >= 1.0
    ensures var r := Frame(v, s, delta, world, m);
      && r.Ok? && r.state.phase == Idle
      && r.state.camera == s.savedCamera
      && r.state.controls == Some(Controls(true, s.savedTarget))
      && r.state.lookAt == s.savedTarget
  {
    ZoomOutFrameFacts(v, s, delta, world, m);
  }

  /** A zoom-in's first frame with no time elapsed leaves the camera and the target on the saved pose. */
  lemma ZoomInDeparts(v: Variant, s: CamState, delta: real, world: Selection -> Vec3, m: Math)
    requires Inv(s) && s.phase == ZoomingIn && s.selected != null && s.progress == 0.0 && delta == 0.0
    ensures var r := Frame(v, s, delta, world, m);
      && r.Ok? && r.state.phase == ZoomingIn
      && r.state.camera == s.savedCamera
      && r.state.controls == Some(Controls(false, s.savedTarget))
  {
    LerpEnds(s.savedCamera, Desired(v, world(s.selected), m), s.progress + delta);
    LerpEnds(s.savedTarget, world(s.selected), s.progress + delta);
  }

  /**
   * A zoom-out's first frame with no time elapsed puts the camera at the desired position for the
   * previous selection (the origin when there is none) and the target on that point.
   */
  lemma ZoomOutDeparts(v: Variant, s: CamState, delta: real, world: Selection -> Vec3, m: Math)
    requires Inv(s) && s.phase == ZoomingOut && s.progress == 0.0 && delta == 0.0
    ensures var r := Frame(v, s, delta, world, m);
      var start := ZoomOutStart(s, world);
      && r.Ok? && r.state.phase == ZoomingOut
      && r.state.camera == Desired(v, start, m)
      && r.state.controls == Some(Controls(false, start)) && r.state.lookAt == start
  {
    var start := ZoomOutStart(s, world);
    LerpEnds(Desired(v, start, m), s.savedCamera, s.progress + delta);
    LerpEnds(start, s.savedTarget, s.progress + delta);
  }

  /**
   * Away from `idle` no event touches the saved pose, and the only way back to `idle` is the
   * frame that completes the zoom-out, which lands on that pose.
   */
  lemma BusyKeepsSavedPose(v: Variant, s: CamState, e: Event, m: Math)
    requires Inv(s) && s.phase != Idle && ClockEvent(e)
    ensures var r := Apply(v, s, e, m).state;
      && r.savedCamera == s.savedCamera && r.savedTarget == s.savedTarget
      && (r.phase == Idle ==> r.camera == s.savedCamera && r.controls == Some(Controls(true, s.savedTarget)))
  {
    if e.Tick? {
      match s.phase
      case ZoomingIn =>
        if s.selected != null {
          ZoomInFrameFacts(v, s, e.delta, e.world, m);
        } else {
          var s1 := Advance(s, e.delta, Following);
          assert ZoomInFrame(v, s, e.delta, e.world, m) == Crashed(s1);
        }
      case Following => FollowFrameFacts(v, s, e.world, m);
      case ZoomingOut => ZoomOutFrameFacts(v, s, e.delta, e.world, m);
    }
  }

  lemma {:induction false} UntilIdleLands(v: Variant, s: CamState, events: seq<Event>, m: Math)
    requires Inv(s) && s.phase != Idle
    requires forall i :: 0 <= i < |events| ==> ClockEvent(events[i])
    ensures var r := RunUntilIdle(v, s, events, m);
      r.Ok? && r.state.phase == Idle ==>
        r.state.camera == s.savedCamera && r.state.controls == Some(Controls(true, s.savedTarget))
    decreases |events|
  {
    if events != [] {
      var e := events[0];
      ApplyPreservesInv(v, s, e, m);
      BusyKeepsSavedPose(v, s, e, m);
      match Apply(v, s, e, m)
      case Crashed(t) =>
      case Ok(t) =>
        if t.phase != Idle {
          UntilIdleLands(v, t, events[1..], m);
        }
    }
  }

  /**
   * The round trip: once a zoom-in starts, whatever events follow (clicks, keys, the close
   * button as written, renders, frames in which the bodies move), the first return to `idle`
   * that no frame interrupted by throwing puts the camera and the controls back exactly where
   * they were before the zoom-in.
   */
  lemma ZoomRoundTrip(v: Variant, s: CamState, events: seq<Event>, m: Math)
    requires Inv(s) && ZoomInGuard(s)
    requires forall i :: 0 <= i < |events| ==> ClockEvent(events[i])
    ensures var r := RunUntilIdle(v, ZoomInStep(s), events, m);
      r.Ok? && r.state.phase == Idle ==> r.state.camera == s.camera && r.state.controls == s.controls
  {
    var s1 := ZoomInStep(s);
    ApplyPreservesInv(v, s, ZoomInEffect, m);
    UntilIdleLands(v, s1, events, m);
  }

  /**
   * The close button as written, pressed while zooming in: the zoom-in loses its body, neither
   * effect reacts (the zoom-out effect waits for `following` or `idle`), and the next frame
   * dereferences the null selection.
   */
  lemma CloseDuringZoomInThrows(v: Variant, s: CamState, delta: real, world: Selection -> Vec3, m: Math)
    requires Inv(s) && s.phase == ZoomingIn
    ensures !SelectionHeld(CloseAsWritten(s))
    ensures var t := RenderPreviousStep(CloseAsWritten(s));
      && ZoomInStep(t) == t && ZoomOutStep(t) == t
      && Frame(v, t, delta, world, m).Crashed?
  {
  }

  /**
   * With the close button guarded like Escape, every event keeps both the invariant and a body to
   * zoom in to.
   */
  lemma GuardedKeepsSelectionHeld(v: Variant, s: CamState, e: Event, m: Math)
    requires Inv(s) && SelectionHeld(s) && ClockEvent(e)
    ensures Inv(ApplyGuarded(v, s, e, m).state) && SelectionHeld(ApplyGuarded(v, s, e, m).state)
  {
    if e.Tick? {
      FramePreservesInv(v, s, e.delta, e.world, m);
      if s.phase == ZoomingIn {
        ZoomInFrameFacts(v, s, e.delta, e.world, m);
      }
    } else if !e.CloseButton? {
      ApplyPreservesInv(v, s, e, m);
    }
  }

  /** The guarded close button ignores a running zoom, so the zoom's next frame does not throw. */
  lemma GuardedCloseKeepsZoomSafe(v: Variant, s: CamState, delta: real, world: Selection -> Vec3, m: Math)
    requires Inv(s) && SelectionHeld(s) && (s.phase == ZoomingIn || s.phase == ZoomingOut)
    ensures CloseStep(s) == s
    ensures Frame(v, CloseStep(s), delta, world, m).Ok?
  {
  }
}
