/**
 * The mutable objects the components share: three.js scene objects, React refs to them, and
 * the selection record a click hands to the camera.
 */
module SceneGraph {
  import opened Geometry

  datatype Option<T> = None | Some(value: T)

  /** A three.js Object3D; only its position matters here. */
  class Object3D {
    var position: Vec3

    constructor (p: Vec3)
      ensures position == p
    {
      position := p;
    }
  }

  /** A React ref: `current` is null until the object it names is mounted. */
  class Ref {
    var current: Object3D?

    constructor ()
      ensures current == null
    {
      current := null;
    }
  }

  /**
   * The record `{ name, info, composition, orbitDetails, ref }` a click selects. Each click
   * builds a new record, so two selections are the same only when they are the same object.
   */
  class Selection {
    const name: string
    const info: string
    const composition: string
    const orbitDetails: string
    const ref: Ref

    constructor (name: string, info: string, composition: string, orbitDetails: string, ref: Ref)
      ensures this.name == name && this.info == info && this.composition == composition
      ensures this.orbitDetails == orbitDetails && this.ref == ref
    {
      this.name := name;
      this.info := info;
      this.composition := composition;
      this.orbitDetails := orbitDetails;
      this.ref := ref;
    }
  }
}
