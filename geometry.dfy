/** Vector values and the math library the camera relies on.
    Scalars are modelled as `real`; the trigonometry, normalisation, cross product
    and look-at construction of the external math library are parameters of the
    model (fields of `MathLib`), so nothing is assumed about their results. */
module Geometry {

  /** A 3-component vector, used both as a point and as a direction. */
  datatype Vec3 = Vec3(x: real, y: real, z: real)

  const Origin: Vec3 := Vec3(0.0, 0.0, 0.0)

  function Add(a: Vec3, b: Vec3): Vec3 {
    Vec3(a.x + b.x, a.y + b.y, a.z + b.z)
  }

  function Sub(a: Vec3, b: Vec3): Vec3 {
    Vec3(a.x - b.x, a.y - b.y, a.z - b.z)
  }

  function Scale(v: Vec3, k: real): Vec3 {
    Vec3(v.x * k, v.y * k, v.z * k)
  }

  function Neg(v: Vec3): Vec3 {
    Vec3(-v.x, -v.y, -v.z)
  }

  lemma ScaleByMinusOne(v: Vec3)
    ensures Scale(v, -1.0) == Neg(v)
  {
  }

  lemma SubScaled(p: Vec3, v: Vec3, k: real)
    ensures Sub(p, Scale(v, k)) == Add(p, Scale(Neg(v), k))
  {
  }

  /** Adding a scaled vector and then the same multiple of its negation cancels. */
  lemma AddScaledCancel(p: Vec3, a: Vec3, k: real)
    ensures Add(Add(p, Scale(a, k)), Scale(Neg(a), k)) == p
  {
  }

  /** A 4x4 matrix as the math library returns it (sixteen entries). */
  datatype Mat4 = Mat4(entries: seq<real>)

  /** The operations of the external math library the camera calls. Each is an
      arbitrary total function: the model states what is computed FROM them,
      never what they compute. */
  datatype MathLib = MathLib(
    cos: real -> real,
    sin: real -> real,
    normalize: Vec3 -> Vec3,
    cross: (Vec3, Vec3) -> Vec3,
    lookAt: (Vec3, Vec3, Vec3) -> Mat4
  )

  /** The single-precision value of pi, 13176795 / 2^22. */
  const PI: real := 13176795.0 / 4194304.0

  function DegreeToRadian(degree: real): real {
    degree * PI / 180.0
  }
}
