// Three-dimensional vectors, 3x3 matrices and quaternions over the reals.
// Stand-ins for the Hipparchus Vector3D, RealMatrix and Quaternion values
// the simulator manipulates; doubles are modelled as mathematical reals.

module Wrappers {
  datatype Option<T> = None | Some(value: T)
}

module Vectors {
  datatype Vec3 = Vec3(x: real, y: real, z: real)

  const Zero: Vec3 := Vec3(0.0, 0.0, 0.0)
  const PlusI: Vec3 := Vec3(1.0, 0.0, 0.0)
  const MinusI: Vec3 := Vec3(-1.0, 0.0, 0.0)

  function Add(a: Vec3, b: Vec3): Vec3 {
    Vec3(a.x + b.x, a.y + b.y, a.z + b.z)
  }

  function Sub(a: Vec3, b: Vec3): Vec3 {
    Vec3(a.x - b.x, a.y - b.y, a.z - b.z)
  }

  function Scale(k: real, v: Vec3): Vec3 {
    Vec3(k * v.x, k * v.y, k * v.z)
  }

  /** Component-wise (Hadamard) product. */
  function Mul(a: Vec3, b: Vec3): Vec3 {
    Vec3(a.x * b.x, a.y * b.y, a.z * b.z)
  }

  function Dot(a: Vec3, b: Vec3): real {
    a.x * b.x + a.y * b.y + a.z * b.z
  }

  function Cross(a: Vec3, b: Vec3): Vec3 {
    Vec3(a.y * b.z - a.z * b.y, a.z * b.x - a.x * b.z, a.x * b.y - a.y * b.x)
  }

  function NormSq(v: Vec3): real {
    Dot(v, v)
  }

  /** The components as the length-3 double array the simulator stores. */
  function ToSeq(v: Vec3): seq<real> {
    [v.x, v.y, v.z]
  }

  /** A 3x3 matrix given by its rows. */
  datatype Matrix3 = Matrix3(row0: Vec3, row1: Vec3, row2: Vec3)

  const Identity: Matrix3 := Matrix3(Vec3(1.0, 0.0, 0.0), Vec3(0.0, 1.0, 0.0), Vec3(0.0, 0.0, 1.0))

  function Diagonal(m: Matrix3): Vec3 {
    Vec3(m.row0.x, m.row1.y, m.row2.z)
  }

  predicate IsDiagonal(m: Matrix3) {
    m.row0.y == 0.0 && m.row0.z == 0.0 && m.row1.x == 0.0 &&
    m.row1.z == 0.0 && m.row2.x == 0.0 && m.row2.y == 0.0
  }

  /** Division by an inertia axis needs a non-zero diagonal entry. */
  predicate NonZeroDiagonal(m: Matrix3) {
    m.row0.x != 0.0 && m.row1.y != 0.0 && m.row2.z != 0.0
  }

  /** A quaternion q0 + q1 i + q2 j + q3 k (scalar part first, as in Hipparchus). */
  datatype Quaternion = Quaternion(q0: real, q1: real, q2: real, q3: real)

  const QuaternionIdentity: Quaternion := Quaternion(1.0, 0.0, 0.0, 0.0)

  /** Hamilton product p * q. */
  function Multiply(p: Quaternion, q: Quaternion): Quaternion {
    Quaternion(
      p.q0 * q.q0 - p.q1 * q.q1 - p.q2 * q.q2 - p.q3 * q.q3,
      p.q0 * q.q1 + p.q1 * q.q0 + p.q2 * q.q3 - p.q3 * q.q2,
      p.q0 * q.q2 - p.q1 * q.q3 + p.q2 * q.q0 + p.q3 * q.q1,
      p.q0 * q.q3 + p.q1 * q.q2 - p.q2 * q.q1 + p.q3 * q.q0)
  }

  function QNormSq(q: Quaternion): real {
    q.q0 * q.q0 + q.q1 * q.q1 + q.q2 * q.q2 + q.q3 * q.q3
  }
}
