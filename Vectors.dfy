/** Three-component vectors with exact real arithmetic.
    They stand for the engine's single-precision float3 / Vector3: rounding is not modelled. */
module Vectors {

  datatype Vec3 = Vec3(x: real, y: real, z: real)

  const Zero: Vec3 := Vec3(0.0, 0.0, 0.0)

  function Add(a: Vec3, b: Vec3): Vec3 {
    Vec3(a.x + b.x, a.y + b.y, a.z + b.z)
  }

  function Sub(a: Vec3, b: Vec3): Vec3 {
    Vec3(a.x - b.x, a.y - b.y, a.z - b.z)
  }

  function Scale(v: Vec3, s: real): Vec3 {
    Vec3(v.x * s, v.y * s, v.z * s)
  }

  /** Squared Euclidean distance, as `math.distancesq`. */
  function DistSq(a: Vec3, b: Vec3): (d: real)
    ensures d >= 0.0
  {
    var dx, dy, dz := a.x - b.x, a.y - b.y, a.z - b.z;
    dx * dx + dy * dy + dz * dz
  }

  /** Moving by `v` for `s` and then for `t` is moving by `v` for `s + t`. */
  lemma ScaleAdditive(p: Vec3, v: Vec3, s: real, t: real)
    ensures Add(Add(p, Scale(v, s)), Scale(v, t)) == Add(p, Scale(v, s + t))
  {
    assert v.x * s + v.x * t == v.x * (s + t);
    assert v.y * s + v.y * t == v.y * (s + t);
    assert v.z * s + v.z * t == v.z * (s + t);
  }
}
