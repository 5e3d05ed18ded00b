/** The scene objects the interaction techniques act on: a `GameObject`
    with its `Transform` position, optional `Rigidbody` and optional
    `Renderer`. */
module Scene {
  import opened Common

  /** The identity of a material asset. */
  type Material = nat

  /** What `GetComponent<Rigidbody>()` finds on an object. */
  datatype RigidbodyKind = NoRigidbody | Kinematic | Dynamic

  class Body {
    const name: string
    const tag: string
    const layer: nat
    const rigidbody: RigidbodyKind
    const hasRenderer: bool
    var position: Vec3
    var velocity: Vec3
    var angularVelocity: Vec3
    var useGravity: bool
    var freezeRotation: bool
    var material: Material

    constructor (name: string, tag: string, layer: nat, rigidbody: RigidbodyKind,
                 hasRenderer: bool, position: Vec3, material: Material)
      ensures this.name == name && this.tag == tag && this.layer == layer
      ensures this.rigidbody == rigidbody && this.hasRenderer == hasRenderer
      ensures this.position == position && this.material == material
      ensures velocity == Zero && angularVelocity == Zero
      ensures useGravity && !freezeRotation
    {
      this.name := name;
      this.tag := tag;
      this.layer := layer;
      this.rigidbody := rigidbody;
      this.hasRenderer := hasRenderer;
      this.position := position;
      this.material := material;
      velocity := Zero;
      angularVelocity := Zero;
      useGravity := true;
      freezeRotation := false;
    }

    /** `rb != null && !rb.isKinematic`: the body is moved by velocity,
        every other body by writing its position. */
    predicate IsDynamic() {
      rigidbody == Dynamic
    }
  }

  /** The frame of an optional reference. */
  function Just(b: Body?): set<Body> {
    if b == null then {} else {b}
  }
}
