/**
 * The solar-system scene of SolarSystem.jsx: its table of eight planets and the `Planet`
 * component that moves each of them on a circle about the sun.
 */
module SolarSystem {
  import opened Geometry
  import opened Orbit
  import opened SceneGraph

  /** One row of the planet table (the loaded 3D object is left out). */
  datatype PlanetSpec = PlanetSpec(
    speed: real,
    distance: real,
    name: string,
    info: string,
    composition: string,
    orbitDetails: string)

  const Planets: seq<PlanetSpec> := [
    PlanetSpec(0.4, 1.25, "Mercury",
      "Mercury is the closest planet to the Sun.",
      "Mercury is a rocky planet with a solid, cratered surface.",
      "Mercury has the shortest orbit around the Sun at 88 Earth days."),
    PlanetSpec(0.3, 1.65, "Venus",
      "Venus is the second planet from the Sun.",
      "Venus has a thick atmosphere composed mainly of carbon dioxide.",
      "Venus orbits the Sun every 225 Earth days."),
    PlanetSpec(0.2, 2.0, "Earth",
      "Earth is our home planet.",
      "Earth has a diverse composition with oceans, continents, and an atmosphere.",
      "Earth orbits the Sun every 365.25 days."),
    PlanetSpec(0.17, 2.25, "Mars",
      "Mars is the fourth planet from the Sun.",
      "Mars is known as the Red Planet due to its iron oxide-rich surface.",
      "Mars takes about 687 Earth days to orbit the Sun."),
    PlanetSpec(0.1, 2.75, "Jupiter",
      "Jupiter is the largest planet in the Solar System.",
      "Jupiter is a gas giant composed mainly of hydrogen and helium.",
      "Jupiter takes about 12 Earth years to orbit the Sun."),
    PlanetSpec(0.083, 3.25, "Saturn",
      "Saturn is known for its prominent ring system.",
      "Saturn is a gas giant composed mainly of hydrogen and helium.",
      "Saturn takes about 29 Earth years to orbit the Sun."),
    PlanetSpec(0.047, 3.75, "Uranus",
      "Uranus is an ice giant with a unique tilt.",
      "Uranus has an atmosphere of hydrogen, helium, and methane.",
      "Uranus takes about 84 Earth years to orbit the Sun."),
    PlanetSpec(0.038, 4.25, "Neptune",
      "Neptune is the farthest known planet from the Sun in the Solar System.",
      "Neptune is an ice giant with a composition similar to Uranus.",
      "Neptune takes about 165 Earth years to orbit the Sun.")
  ]

  /** Each element is smaller than the next. */
  predicate StepsUp(s: seq<real>) {
    forall i :: 0 < i < |s| ==> s[i - 1] < s[i]
  }

  /** Every element is smaller than every later one. */
  predicate StrictlyIncreasing(s: seq<real>) {
    forall i, j :: 0 <= i < j < |s| ==> s[i] < s[j]
  }

  lemma {:induction false} StepsUpIsIncreasing(s: seq<real>)
    requires StepsUp(s)
    ensures StrictlyIncreasing(s)
  {
    if |s| > 1 {
      var init := s[..|s| - 1];
      assert StepsUp(init) by {
        forall i | 0 < i < |init| ensures init[i - 1] < init[i] {
          assert init[i - 1] == s[i - 1] && init[i] == s[i];
        }
      }
      StepsUpIsIncreasing(init);
      forall i, j | 0 <= i < j < |s| ensures s[i] < s[j] {
        if j < |s| - 1 {
          assert s[i] == init[i] && s[j] == init[j];
        } else if i < |s| - 2 {
          assert s[i] == init[i] && s[j - 1] == init[j - 1];
        }
      }
    }
  }

  function Distances(t: seq<PlanetSpec>): (r: seq<real>)
    ensures |r| == |t| && forall i :: 0 <= i < |t| ==> r[i] == t[i].distance
  {
    seq(|t|, i requires 0 <= i < |t| => t[i].distance)
  }

  function Speeds(t: seq<PlanetSpec>): (r: seq<real>)
    ensures |r| == |t| && forall i :: 0 <= i < |t| ==> r[i] == t[i].speed
  {
    seq(|t|, i requires 0 <= i < |t| => t[i].speed)
  }

  function Negated(s: seq<real>): (r: seq<real>)
    ensures |r| == |s| && forall i :: 0 <= i < |s| ==> r[i] == -s[i]
  {
    seq(|s|, i requires 0 <= i < |s| => -s[i])
  }

  /** The table's distance and speed columns. */
  lemma Columns()
    ensures Distances(Planets) == [1.25, 1.65, 2.0, 2.25, 2.75, 3.25, 3.75, 4.25]
    ensures Negated(Speeds(Planets)) == [-0.4, -0.3, -0.2, -0.17, -0.1, -0.083, -0.047, -0.038]
  {
  }

  /** Eight planets, ordered outwards from the sun: each farther out and slower than the one before. */
  lemma PlanetTableOrdered()
    ensures |Planets| == 8
    ensures forall i, j :: 0 <= i < j < |Planets| ==> Planets[i].distance < Planets[j].distance
    ensures forall i, j :: 0 <= i < j < |Planets| ==> Planets[i].speed > Planets[j].speed
    ensures forall i :: 0 <= i < |Planets| ==> Planets[i].distance > 0.0 && Planets[i].speed > 0.0
  {
    Columns();
    OrderedColumns(Planets);
  }

  /** A table whose columns step up (distances) and down (speeds) row by row is ordered throughout. */
  lemma OrderedColumns(t: seq<PlanetSpec>)
    requires StepsUp(Distances(t)) && StepsUp(Negated(Speeds(t)))
    requires |t| > 0 ==> t[0].distance > 0.0 && t[|t| - 1].speed > 0.0
    ensures forall i, j :: 0 <= i < j < |t| ==> t[i].distance < t[j].distance
    ensures forall i, j :: 0 <= i < j < |t| ==> t[i].speed > t[j].speed
    ensures forall i :: 0 <= i < |t| ==> t[i].distance > 0.0 && t[i].speed > 0.0
  {
    var d := Distances(t);
    var n := Negated(Speeds(t));
    StepsUpIsIncreasing(d);
    StepsUpIsIncreasing(n);
    forall i, j | 0 <= i < j < |t| ensures t[i].speed > t[j].speed {
      assert n[i] < n[j];
    }
  }

  /** Two distinct radii give two disjoint orbits: bodies on them never share a position. */
  lemma {:induction false} DistinctOrbitsNeverMeet(sun: Vec3, a1: real, d1: real, a2: real, d2: real, m: Math)
    requires TrigLaws(m)
    requires 0.0 < d1 < d2
    ensures OrbitPoint(sun, a1, d1, d1, m) != OrbitPoint(sun, a2, d2, d2, m)
  {
    OnCircle(sun, a1, d1, m);
    OnCircle(sun, a2, d2, m);
    calc {
      d1 * d1;
    < { assert d1 * d1 < d1 * d2; }
      d1 * d2;
    < { assert d1 * d2 < d2 * d2; }
      d2 * d2;
    }
  }

  /** At any moment no two planets of the table are in the same place, and at time 0 they line up along x. */
  lemma PlanetsApart(sun: Vec3, elapsed: real, m: Math)
    requires TrigLaws(m)
    ensures forall i, j :: 0 <= i < j < |Planets| ==>
      OrbitPoint(sun, elapsed * Planets[i].speed, Planets[i].distance, Planets[i].distance, m)
      != OrbitPoint(sun, elapsed * Planets[j].speed, Planets[j].distance, Planets[j].distance, m)
    ensures forall i :: 0 <= i < |Planets| ==>
      OrbitPoint(sun, 0.0 * Planets[i].speed, Planets[i].distance, Planets[i].distance, m)
      == Vec3(sun.x + Planets[i].distance, sun.y, sun.z)
  {
    PlanetTableOrdered();
    forall i, j | 0 <= i < j < |Planets|
      ensures OrbitPoint(sun, elapsed * Planets[i].speed, Planets[i].distance, Planets[i].distance, m)
           != OrbitPoint(sun, elapsed * Planets[j].speed, Planets[j].distance, Planets[j].distance, m)
    {
      DistinctOrbitsNeverMeet(sun, elapsed * Planets[i].speed, Planets[i].distance,
                              elapsed * Planets[j].speed, Planets[j].distance, m);
    }
    forall i | 0 <= i < |Planets|
      ensures OrbitPoint(sun, 0.0 * Planets[i].speed, Planets[i].distance, Planets[i].distance, m)
           == Vec3(sun.x + Planets[i].distance, sun.y, sun.z)
    {
      assert 0.0 * Planets[i].speed == 0.0;
    }
  }

  /** The `Planet` component of the scene: a table row, moved on a circle about the sun. */
  class Planet {
    const spec: PlanetSpec
    const ref: Ref

    constructor (spec: PlanetSpec)
      ensures this.spec == spec && fresh(ref) && ref.current == null
    {
      this.spec := spec;
      ref := new Ref();
    }

    /** One frame: put the planet on its circle about the sun, unless it is not mounted. */
    method OnFrame(elapsed: real, sunPosition: Vec3, m: Math)
      modifies ref.current
      ensures ref.current != null ==>
        ref.current.position == OrbitPoint(sunPosition, elapsed * spec.speed, spec.distance, spec.distance, m)
    {
      var obj := ref.current;
      if obj != null {
        var x := sunPosition.x + m.cos(elapsed * spec.speed) * spec.distance;
        var z := sunPosition.z + m.sin(elapsed * spec.speed) * spec.distance;
        obj.position := obj.position.(x := x);
        obj.position := obj.position.(y := sunPosition.y);
        obj.position := obj.position.(z := z);
      }
    }

    /** A click selects a new record naming this planet and its ref. */
    method OnClick() returns (selection: Selection)
      ensures fresh(selection)
      ensures selection.name == spec.name && selection.info == spec.info
      ensures selection.composition == spec.composition && selection.orbitDetails == spec.orbitDetails
      ensures selection.ref == ref
    {
      selection := new Selection(spec.name, spec.info, spec.composition, spec.orbitDetails, ref);
    }
  }
}
