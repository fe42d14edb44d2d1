/**
 * The `Planet` component of Planet.jsx: a body that a frame callback moves on its orbit, either
 * about the sun or, for a moon whose parent is mounted, about its parent.
 */
module PlanetComponent {
  import opened Geometry
  import opened Orbit
  import opened SceneGraph

  /**
   * The position the frame callback writes at time `elapsed`. `parent` is the parent's
   * position when the parent ref and its current object both exist.
   */
  function FramePosition(isMoon: bool, parent: Option<Vec3>, sun: Vec3, elapsed: real,
                         speed: real, distance: real, m: Math): Vec3
  {
    if isMoon && parent.Some? then
      OrbitPoint(parent.value, elapsed * speed, distance, distance, m)
    else
      OrbitPoint(sun, elapsed * speed, distance, distance * 2.0, m)
  }

  /** A moon stays in its parent's horizontal plane, `distance` away from it. */
  lemma MoonCirclesParent(parent: Vec3, sun: Vec3, elapsed: real, speed: real, distance: real, m: Math)
    requires TrigLaws(m)
    ensures var p := FramePosition(true, Some(parent), sun, elapsed, speed, distance, m);
      p.y == parent.y && PlanarDistanceSquared(p, parent) == distance * distance
  {
    OnCircle(parent, elapsed * speed, distance, m);
  }

  /**
   * Without a mounted parent, or for a body that is not a moon, the body stays in the sun's
   * horizontal plane on the ellipse with semi-axes `distance` along x and `2 * distance` along z.
   */
  lemma SunBranchOnEllipse(isMoon: bool, parent: Option<Vec3>, sun: Vec3, elapsed: real,
                           speed: real, distance: real, m: Math)
    requires TrigLaws(m)
    requires !(isMoon && parent.Some?)
    requires distance != 0.0
    ensures var p := FramePosition(isMoon, parent, sun, elapsed, speed, distance, m);
      && p.y == sun.y
      && ((p.x - sun.x) / distance) * ((p.x - sun.x) / distance)
         + ((p.z - sun.z) / (2.0 * distance)) * ((p.z - sun.z) / (2.0 * distance)) == 1.0
  {
    assert distance * 2.0 == 2.0 * distance;
    OnEllipse(sun, elapsed * speed, distance, distance * 2.0, m);
  }

  /** The parent's position is consulted only by a moon: every other body ignores it. */
  lemma ParentOnlyMovesMoons(isMoon: bool, parent: Option<Vec3>, sun: Vec3, elapsed: real,
                             speed: real, distance: real, m: Math)
    ensures !isMoon ==> FramePosition(isMoon, parent, sun, elapsed, speed, distance, m)
                        == FramePosition(isMoon, None, sun, elapsed, speed, distance, m)
    ensures FramePosition(isMoon, None, sun, elapsed, speed, distance, m)
            == FramePosition(false, None, sun, elapsed, speed, distance, m)
  {
  }

  /** At time 0 a moon sits `distance` along x from its parent and any other body `distance` along x from the sun. */
  lemma StartPositions(isMoon: bool, parent: Option<Vec3>, sun: Vec3, speed: real, distance: real, m: Math)
    requires TrigLaws(m)
    ensures var p := FramePosition(isMoon, parent, sun, 0.0, speed, distance, m);
      if isMoon && parent.Some? then p == Vec3(parent.value.x + distance, parent.value.y, parent.value.z)
      else p == Vec3(sun.x + distance, sun.y, sun.z)
  {
    assert 0.0 * speed == 0.0;
  }

  class Planet {
    const name: string
    const info: string
    const composition: string
    const orbitDetails: string
    const speed: real
    const distance: real
    const isMoon: bool
    const parentRef: Ref?
    /** The forwarded ref when the parent passes one, otherwise the component's own ref. */
    const actualRef: Ref

    constructor (name: string, info: string, composition: string, orbitDetails: string,
                 speed: real, distance: real, isMoon: bool, parentRef: Ref?, forwarded: Ref?)
      ensures this.name == name && this.info == info && this.composition == composition
      ensures this.orbitDetails == orbitDetails && this.speed == speed && this.distance == distance
      ensures this.isMoon == isMoon && this.parentRef == parentRef
      ensures forwarded != null ==> actualRef == forwarded
      ensures forwarded == null ==> fresh(actualRef) && actualRef.current == null
    {
      this.name := name;
      this.info := info;
      this.composition := composition;
      this.orbitDetails := orbitDetails;
      this.speed := speed;
      this.distance := distance;
      this.isMoon := isMoon;
      this.parentRef := parentRef;
      if forwarded != null {
        actualRef := forwarded;
      } else {
        actualRef := new Ref();
      }
    }

    /** The parent's position when `parentRef` and `parentRef.current` are both present. */
    function ParentPosition(): Option<Vec3>
      reads parentRef, if parentRef == null then null else parentRef.current
    {
      if parentRef != null && parentRef.current != null then Some(parentRef.current.position) else None
    }

    /** One frame: overwrite the body's position, unless its object is not mounted. */
    method OnFrame(elapsed: real, sunPosition: Vec3, m: Math)
      modifies actualRef.current
      ensures actualRef.current != null ==>
        actualRef.current.position
        == FramePosition(isMoon, old(ParentPosition()), sunPosition, elapsed, speed, distance, m)
    {
      var obj := actualRef.current;
      if obj != null {
        if isMoon && parentRef != null && parentRef.current != null {
          var parentPosition := parentRef.current.position;
          var x := parentPosition.x + m.cos(elapsed * speed) * distance;
          var z := parentPosition.z + m.sin(elapsed * speed) * distance;
          obj.position := obj.position.(x := x);
          obj.position := obj.position.(y := parentPosition.y);
          obj.position := obj.position.(z := z);
        } else {
          var x := sunPosition.x + m.cos(elapsed * speed) * distance;
          var z := sunPosition.z + m.sin(elapsed * speed) * distance * 2.0;
          obj.position := obj.position.(x := x);
          obj.position := obj.position.(y := sunPosition.y);
          obj.position := obj.position.(z := z);
        }
      }
    }

    /** A click selects a new record naming this body and its ref. */
    method OnClick() returns (selection: Selection)
      ensures fresh(selection)
      ensures selection.name == name && selection.info == info
      ensures selection.composition == composition && selection.orbitDetails == orbitDetails
      ensures selection.ref == actualRef
    {
      selection := new Selection(name, info, composition, orbitDetails, actualRef);
    }
  }
}
