/** Values shared by every component: optional values, 3D vectors, input
    edges, and the scalar helpers that stand in for Unity's `Mathf`. */
module Common {

  datatype Option<+T> = None | Some(value: T)

  /** A `Vector3`, with exact reals in place of single-precision floats. */
  datatype Vec3 = Vec3(x: real, y: real, z: real)

  const Zero: Vec3 := Vec3(0.0, 0.0, 0.0)

  function Add(a: Vec3, b: Vec3): Vec3 { Vec3(a.x + b.x, a.y + b.y, a.z + b.z) }

  function Sub(a: Vec3, b: Vec3): Vec3 { Vec3(a.x - b.x, a.y - b.y, a.z - b.z) }

  function Scale(v: Vec3, k: real): Vec3 { Vec3(v.x * k, v.y * k, v.z * k) }

  /** A tracked transform: its position and its forward direction. */
  datatype Pose = Pose(position: Vec3, forward: Vec3)

  /** `Vector3.Distance` as the host computes it (a square root, which this
      model does not define). Every component receives it as a parameter. */
  type Distance = (Vec3, Vec3) -> real

  /** The two per-frame queries of an input action:
      `WasPressedThisFrame()` and `WasReleasedThisFrame()`. */
  datatype Edges = Edges(pressed: bool, released: bool)

  function Min(a: real, b: real): (r: real)
    ensures r <= a && r <= b && (r == a || r == b)
  {
    if a <= b then a else b
  }

  function Max(a: real, b: real): (r: real)
    ensures r >= a && r >= b && (r == a || r == b)
  {
    if a >= b then a else b
  }

  /** `Mathf.Clamp01`. */
  function Clamp01(x: real): (r: real)
    ensures 0.0 <= r <= 1.0
    ensures 0.0 <= x <= 1.0 ==> r == x
    ensures x < 0.0 ==> r == 0.0
    ensures x > 1.0 ==> r == 1.0
  {
    if x < 0.0 then 0.0 else if x > 1.0 then 1.0 else x
  }

  /** `Vector3.Lerp`, which clamps its parameter to [0, 1]. */
  function Lerp(a: Vec3, b: Vec3, t: real): Vec3 {
    var s := Clamp01(t);
    Add(a, Scale(Sub(b, a), s))
  }

  /** `Mathf.Pow` restricted to a natural exponent. */
  function Pow(x: real, n: nat): real {
    if n == 0 then 1.0 else x * Pow(x, n - 1)
  }

  lemma {:induction false} PowMonotone(x: real, y: real, n: nat)
    requires 0.0 <= x <= y
    ensures 0.0 <= Pow(x, n) <= Pow(y, n)
  {
    if n > 0 {
      PowMonotone(x, y, n - 1);
      var px, py := Pow(x, n - 1), Pow(y, n - 1);
      MulMonotone(x, y, px);
      MulMonotone(px, py, y);
      assert Pow(x, n) == x * px && Pow(y, n) == y * py;
      assert x * px <= y * px && px * y <= py * y;
    }
  }

  lemma {:induction false} PowUnitInterval(x: real, n: nat)
    requires 0.0 <= x <= 1.0
    ensures 0.0 <= Pow(x, n) <= 1.0
  {
    if n > 0 {
      PowUnitInterval(x, n - 1);
      var px := Pow(x, n - 1);
      assert 0.0 <= px <= 1.0;
      MulMonotone(x, 1.0, px);
      assert x * px <= 1.0 * px == px;
      assert Pow(x, n) == x * px;
    }
  }

  lemma {:induction false} PowPositive(x: real, n: nat)
    requires x > 0.0
    ensures Pow(x, n) > 0.0
  {
    if n > 0 {
      PowPositive(x, n - 1);
    }
  }

  lemma MulMonotone(a: real, b: real, c: real)
    requires 0.0 <= a <= b && c >= 0.0
    ensures 0.0 <= a * c <= b * c
  {
  }
}
