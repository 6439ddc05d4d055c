/** Small real-valued vector algebra shared by the camera, the kernel and the host.
    The source uses 32-bit floats (OpenTK Vector3, GLSL vec3); here every component is a real.
    Square roots, trigonometry and the finiteness test of IEEE floats are not definable over
    reals, so they come in as the fields of a `FloatLib` value. */
module Vectors {

  datatype Vec3 = Vec3(x: real, y: real, z: real)

  datatype Vec4 = Vec4(x: real, y: real, z: real, w: real)

  /** The floating-point library functions the source calls. */
  datatype FloatLib = FloatLib(
    sqrt: real -> real,
    sin: real -> real,
    cos: real -> real,
    tan: real -> real,
    isFinite: real -> bool)

  const Zero3 := Vec3(0.0, 0.0, 0.0)
  const UnitY := Vec3(0.0, 1.0, 0.0)
  const UnitZ := Vec3(0.0, 0.0, 1.0)

  function Abs(a: real): (r: real)
    ensures r >= 0.0 && (r == a || r == -a)
  {
    if a < 0.0 then -a else a
  }

  function Add(a: Vec3, b: Vec3): Vec3 {
    Vec3(a.x + b.x, a.y + b.y, a.z + b.z)
  }

  function Sub(a: Vec3, b: Vec3): Vec3 {
    Vec3(a.x - b.x, a.y - b.y, a.z - b.z)
  }

  function Scale(k: real, a: Vec3): Vec3 {
    Vec3(k * a.x, k * a.y, k * a.z)
  }

  function Dot(a: Vec3, b: Vec3): real {
    a.x * b.x + a.y * b.y + a.z * b.z
  }

  function Cross(a: Vec3, b: Vec3): Vec3 {
    Vec3(a.y * b.z - a.z * b.y, a.z * b.x - a.x * b.z, a.x * b.y - a.y * b.x)
  }

  function LengthSq(a: Vec3): real {
    Dot(a, a)
  }

  /** GLSL mix(a, b, t) = a * (1 - t) + b * t. */
  function Mix(a: Vec3, b: Vec3, t: real): Vec3 {
    Add(Scale(1.0 - t, a), Scale(t, b))
  }

  /** vec4(p, 1.0) as the kernel stores a recorded position. */
  function Point4(p: Vec3): Vec4 {
    Vec4(p.x, p.y, p.z, 1.0)
  }

  /** The factor by which Normalize scales its argument: 1/|v|. OpenTK divides by the length
      unconditionally, which gives NaN for the zero vector; the model keeps the vector then. */
  function NormalizeFactor(v: Vec3, lib: FloatLib): (k: real)
    ensures k > 0.0
  {
    var len := lib.sqrt(LengthSq(v));
    if len > 0.0 then 1.0 / len else 1.0
  }

  function Normalize(v: Vec3, lib: FloatLib): Vec3 {
    Scale(NormalizeFactor(v, lib), v)
  }

  /** The cross product is orthogonal to both of its factors. */
  lemma CrossOrthogonal(a: Vec3, b: Vec3)
    ensures Dot(Cross(a, b), a) == 0.0 && Dot(Cross(a, b), b) == 0.0
  {
  }

  /** Scaling the first factor of a dot product scales the product. */
  lemma DotScale(k: real, a: Vec3, b: Vec3)
    ensures Dot(Scale(k, a), b) == k * Dot(a, b)
  {
  }

  /** A vector has no cross product with any multiple of itself. */
  lemma CrossParallel(k: real, a: Vec3)
    ensures Cross(Scale(k, a), a) == Zero3
  {
  }

  lemma ScaleScale(j: real, k: real, a: Vec3)
    ensures Scale(j, Scale(k, a)) == Scale(j * k, a)
  {
  }

  lemma DotAdd(a: Vec3, b: Vec3, c: Vec3)
    ensures Dot(Add(a, b), c) == Dot(a, c) + Dot(b, c)
  {
  }

  lemma DotSymmetric(a: Vec3, b: Vec3)
    ensures Dot(a, b) == Dot(b, a)
  {
  }
}
