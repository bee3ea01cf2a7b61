// Rotational dynamics of the rigid satellite body: Euler's equations of
// motion (RotAccProvider), the variant of RotAccelerationProvider, the
// constant-inertia spin equation (TorqueToSpinEquation), the angular momentum
// of the assembly and the Wilcox quaternion increment (StepHandler).

module RigidBody {
  import opened Vectors

  /** Name of the additional state holding the rotational acceleration. */
  const RotAccName: string := "RotAcc"

  /**
   * Rotational acceleration from Euler's equations of motion for a rotating
   * rigid body. Only the diagonal of the inertia matrix is read.
   */
  function EulerEquations(torque: Vec3, spin: Vec3, inertia: Matrix3): (acc: Vec3)
    requires NonZeroDiagonal(inertia)
    ensures inertia.row0.x * acc.x + (inertia.row2.z - inertia.row1.y) * spin.y * spin.z == torque.x
    ensures inertia.row1.y * acc.y + (inertia.row0.x - inertia.row2.z) * spin.z * spin.x == torque.y
    ensures inertia.row2.z * acc.z + (inertia.row1.y - inertia.row0.x) * spin.x * spin.y == torque.z
  {
    var i1, i2, i3 := inertia.row0.x, inertia.row1.y, inertia.row2.z;
    Vec3((torque.x - (i3 - i2) * spin.y * spin.z) / i1,
         (torque.y - (i1 - i3) * spin.z * spin.x) / i2,
         (torque.z - (i2 - i1) * spin.x * spin.y) / i3)
  }

  /** Euler's equations determine the acceleration: any vector satisfying them
    * is the one computed. */
  lemma EulerEquationsUnique(torque: Vec3, spin: Vec3, inertia: Matrix3, acc: Vec3)
    requires NonZeroDiagonal(inertia)
    requires inertia.row0.x * acc.x + (inertia.row2.z - inertia.row1.y) * spin.y * spin.z == torque.x
    requires inertia.row1.y * acc.y + (inertia.row0.x - inertia.row2.z) * spin.z * spin.x == torque.y
    requires inertia.row2.z * acc.z + (inertia.row1.y - inertia.row0.x) * spin.x * spin.y == torque.z
    ensures acc == EulerEquations(torque, spin, inertia)
  {
    var e := EulerEquations(torque, spin, inertia);
    assert inertia.row0.x * (acc.x - e.x) == 0.0;
    assert inertia.row1.y * (acc.y - e.y) == 0.0;
    assert inertia.row2.z * (acc.z - e.z) == 0.0;
  }

  /** Off-diagonal inertia entries have no effect on the acceleration. */
  lemma EulerReadsOnlyDiagonal(torque: Vec3, spin: Vec3, m: Matrix3, n: Matrix3)
    requires NonZeroDiagonal(m) && Diagonal(m) == Diagonal(n)
    ensures EulerEquations(torque, spin, m) == EulerEquations(torque, spin, n)
  {
  }

  /** Without spin there is no gyroscopic coupling: each axis is M_i / I_i. */
  lemma EulerWithoutSpin(torque: Vec3, inertia: Matrix3)
    requires NonZeroDiagonal(inertia)
    ensures EulerEquations(torque, Zero, inertia)
         == Vec3(torque.x / inertia.row0.x, torque.y / inertia.row1.y, torque.z / inertia.row2.z)
  {
  }

  /** With equal principal moments the coupling vanishes whatever the spin. */
  lemma EulerIsotropic(torque: Vec3, spin: Vec3, inertia: Matrix3)
    requires NonZeroDiagonal(inertia)
    requires inertia.row0.x == inertia.row1.y == inertia.row2.z
    ensures EulerEquations(torque, spin, inertia) == Scale(1.0 / inertia.row0.x, torque)
  {
  }

  /** Total torque of the registered providers, added in list order from zero. */
  function SumTorques(torques: seq<Vec3>): Vec3 {
    if |torques| == 0 then Zero else Add(SumTorques(torques[..|torques| - 1]), torques[|torques| - 1])
  }

  /** Splitting the provider list splits the sum. */
  lemma {:induction false} SumTorquesAppend(a: seq<Vec3>, b: seq<Vec3>)
    ensures SumTorques(a + b) == Add(SumTorques(a), SumTorques(b))
  {
    if |b| == 0 {
      assert a + b == a;
    } else {
      assert (a + b)[..|a + b| - 1] == a + b[..|b| - 1];
      SumTorquesAppend(a, b[..|b| - 1]);
    }
  }

  /**
   * RotAccProvider.getAdditionalState: sums the torques the providers return
   * at the state date (in list order) and applies Euler's equations. The
   * result is the three-component "RotAcc" additional state.
   */
  method RotAccAdditionalState(torques: seq<Vec3>, spin: Vec3, inertia: Matrix3) returns (rotAcc: seq<real>)
    requires NonZeroDiagonal(inertia)
    ensures rotAcc == ToSeq(EulerEquations(SumTorques(torques), spin, inertia))
    ensures |rotAcc| == 3
  {
    var overallTorque := Zero;
    var i := 0;
    while i < |torques|
      invariant 0 <= i <= |torques|
      invariant overallTorque == SumTorques(torques[..i])
    {
      assert torques[..i + 1][..i] == torques[..i];
      overallTorque := Add(overallTorque, torques[i]);
      i := i + 1;
    }
    assert torques[..|torques|] == torques;
    var acc := EulerEquations(overallTorque, spin, inertia);
    rotAcc := [acc.x, acc.y, acc.z];
  }

  /**
   * RotAccelerationProvider.getAdditionalState as written: the first axis
   * follows Euler's equations, but the second and third are also divided by
   * the first principal moment I1.
   */
  function RotAccelerationAsWritten(torque: Vec3, spin: Vec3, inertia: Matrix3): (acc: Vec3)
    requires inertia.row0.x != 0.0
    ensures NonZeroDiagonal(inertia) ==> acc.x == EulerEquations(torque, spin, inertia).x
    ensures inertia.row0.x * acc.y + (inertia.row0.x - inertia.row2.z) * spin.z * spin.x == torque.y
    ensures inertia.row0.x * acc.z + (inertia.row1.y - inertia.row0.x) * spin.x * spin.y == torque.z
  {
    var i1, i2, i3 := inertia.row0.x, inertia.row1.y, inertia.row2.z;
    Vec3((torque.x - (i3 - i2) * spin.y * spin.z) / i1,
         (torque.y - (i1 - i3) * spin.z * spin.x) / i1,
         (torque.z - (i2 - i1) * spin.x * spin.y) / i1)
  }

  /** Without spin the variant gives M_i / I1 on every axis. */
  lemma RotAccelerationWithoutSpin(torque: Vec3, inertia: Matrix3)
    requires inertia.row0.x != 0.0
    ensures RotAccelerationAsWritten(torque, Zero, inertia) == Scale(1.0 / inertia.row0.x, torque)
  {
  }

  /** The variant agrees with Euler's equations for a body with equal moments... */
  lemma RotAccelerationAgreesWhenIsotropic(torque: Vec3, spin: Vec3, inertia: Matrix3)
    requires NonZeroDiagonal(inertia) && inertia.row0.x == inertia.row1.y == inertia.row2.z
    ensures RotAccelerationAsWritten(torque, spin, inertia) == EulerEquations(torque, spin, inertia)
  {
  }

  /** ...and only then: with I2 or I3 different from I1 a torque on that axis
    * alone, without spin, is divided by the wrong moment. */
  lemma RotAccelerationDisagreesOtherwise(inertia: Matrix3)
    requires NonZeroDiagonal(inertia) && !(inertia.row0.x == inertia.row1.y == inertia.row2.z)
    ensures exists torque: Vec3 ::
      RotAccelerationAsWritten(torque, Zero, inertia) != EulerEquations(torque, Zero, inertia)
  {
    var i1, i2, i3 := inertia.row0.x, inertia.row1.y, inertia.row2.z;
    var torque := if i2 != i1 then Vec3(0.0, 1.0, 0.0) else Vec3(0.0, 0.0, 1.0);
    var a := RotAccelerationAsWritten(torque, Zero, inertia);
    var e := EulerEquations(torque, Zero, inertia);
    if i2 != i1 {
      assert i1 * a.y == 1.0 && i2 * e.y == 1.0;
      assert a.y != e.y;
    } else {
      assert i3 != i1;
      assert i1 * a.z == 1.0 && i3 * e.z == 1.0;
      assert a.z != e.z;
    }
  }

  /** A concrete body diag(1, 2, 3) at rest under the torque (0, 2, 0): Euler's
    * equations give 1 rad/s^2 on the second axis, the variant gives 2. */
  lemma RotAccelerationCounterexample()
    ensures var inertia := Matrix3(Vec3(1.0, 0.0, 0.0), Vec3(0.0, 2.0, 0.0), Vec3(0.0, 0.0, 3.0));
      RotAccelerationAsWritten(Vec3(0.0, 2.0, 0.0), Zero, inertia).y == 2.0 &&
      EulerEquations(Vec3(0.0, 2.0, 0.0), Zero, inertia).y == 1.0
  {
  }

  /** Name of the spin equation. */
  const SpinEquationName: string := "Spin"

  /**
   * TorqueToSpinEquation.computeDerivatives: the spin derivative of a body
   * with the same moment of inertia on every axis, written into the
   * caller's buffer. The main state is not updated (null is returned).
   */
  method TorqueToSpinDerivatives(torque: Vec3, cs1Inertia: real, pDot: array<real>)
    requires pDot.Length >= 3 && cs1Inertia != 0.0
    modifies pDot
    ensures forall i :: 0 <= i < 3 ==> cs1Inertia * pDot[i] == ToSeq(torque)[i]
    ensures pDot[3..] == old(pDot[3..])
  {
    var wxDot := torque.x / cs1Inertia;
    var wyDot := torque.y / cs1Inertia;
    var wzDot := torque.z / cs1Inertia;
    pDot[0] := wxDot;
    pDot[1] := wyDot;
    pDot[2] := wzDot;
  }

  /** The angular momentum I.w: each component is a row of the full inertia
    * matrix (off-diagonal terms included) dotted with the spin. */
  function AngularMomentum(inertia: Matrix3, spin: Vec3): Vec3 {
    Vec3(Dot(inertia.row0, spin), Dot(inertia.row1, spin), Dot(inertia.row2, spin))
  }

  /** The angular momentum is linear in the spin. */
  lemma AngularMomentumLinear(inertia: Matrix3, a: real, w: Vec3, v: Vec3)
    ensures AngularMomentum(inertia, Scale(a, w)) == Scale(a, AngularMomentum(inertia, w))
    ensures AngularMomentum(inertia, Add(w, v)) == Add(AngularMomentum(inertia, w), AngularMomentum(inertia, v))
    ensures AngularMomentum(inertia, Zero) == Zero
  {
    DotLinear(inertia.row0, a, w, v);
    DotLinear(inertia.row1, a, w, v);
    DotLinear(inertia.row2, a, w, v);
    var h := AngularMomentum(inertia, w);
    assert AngularMomentum(inertia, Scale(a, w)) == Vec3(a * h.x, a * h.y, a * h.z);
    assert AngularMomentum(inertia, Zero) == Vec3(0.0, 0.0, 0.0);
  }

  /** A row dotted with a scaled or summed spin, or with no spin. */
  lemma DotLinear(row: Vec3, a: real, w: Vec3, v: Vec3)
    ensures Dot(row, Scale(a, w)) == a * Dot(row, w)
    ensures Dot(row, Add(w, v)) == Dot(row, w) + Dot(row, v)
    ensures Dot(row, Zero) == 0.0
  {
    assert row.x * (a * w.x) == a * (row.x * w.x);
    assert row.y * (a * w.y) == a * (row.y * w.y);
    assert row.z * (a * w.z) == a * (row.z * w.z);
  }

  /** For principal axes, H_i = I_ii w_i. */
  lemma AngularMomentumDiagonal(inertia: Matrix3, w: Vec3)
    requires IsDiagonal(inertia)
    ensures AngularMomentum(inertia, w) == Mul(Diagonal(inertia), w)
  {
  }

  /** Every inertia entry counts: changing an off-diagonal entry changes the
    * momentum of some spin. */
  lemma AngularMomentumUsesOffDiagonal(inertia: Matrix3, w: Vec3)
    requires w == Vec3(0.0, 1.0, 0.0)
    ensures AngularMomentum(inertia, w).x == inertia.row0.y
    ensures AngularMomentum(inertia, w).y == inertia.row1.y
    ensures AngularMomentum(inertia, w).z == inertia.row2.y
  {
  }
}

module Attitude {
  import opened Vectors

  /** The rotation increment of the Wilcox algorithm for the rotation vector
    * theta: the third-order expansion of (cos(|theta|/2), sin(|theta|/2) theta/|theta|). */
  function DeltaQ(theta: Vec3): Quaternion {
    var s := NormSq(theta);
    Quaternion(1.0 - s / 8.0,
               theta.x / 2.0 * (1.0 - s / 24.0),
               theta.y / 2.0 * (1.0 - s / 24.0),
               theta.z / 2.0 * (1.0 - s / 24.0))
  }

  /** StepHandler.wilcox: propagates the attitude `qi` through the spin over `dt`
    * by right-multiplying with the increment of the rotation vector dt.spin. */
  function Wilcox(qi: Quaternion, spin: Vec3, dt: real): Quaternion {
    Multiply(qi, DeltaQ(Scale(dt, spin)))
  }

  /** The increment is a unit quaternion up to fourth order in the angle:
    * |dQ|^2 = 1 - s^2/192 + s^3/2304 with s = |theta|^2. */
  lemma DeltaQNorm(theta: Vec3)
    ensures var s := NormSq(theta);
      QNormSq(DeltaQ(theta)) == 1.0 - s * s / 192.0 + s * s * s / 2304.0
  {
    var s := NormSq(theta);
    var c := 1.0 - s / 24.0;
    var d := DeltaQ(theta);
    assert d.q0 * d.q0 == 1.0 - s / 4.0 + s * s / 64.0;
    assert d.q1 * d.q1 + d.q2 * d.q2 + d.q3 * d.q3 == s / 4.0 * (c * c);
  }

  /** The Hamilton product multiplies norms (Euler's four-square identity). */
  lemma MultiplyNorm(p: Quaternion, q: Quaternion)
    ensures QNormSq(Multiply(p, q)) == QNormSq(p) * QNormSq(q)
  {
    ProductComponents(p, q);
    NormSqComponents(p);
    NormSqComponents(q);
    NormOfComponents(Multiply(p, q), QNormSq(p), QNormSq(q), p.q0, p.q1, p.q2, p.q3, q.q0, q.q1, q.q2, q.q3);
  }

  lemma ProductComponents(p: Quaternion, q: Quaternion)
    ensures Multiply(p, q).q0 == p.q0 * q.q0 - p.q1 * q.q1 - p.q2 * q.q2 - p.q3 * q.q3
    ensures Multiply(p, q).q1 == p.q0 * q.q1 + p.q1 * q.q0 + p.q2 * q.q3 - p.q3 * q.q2
    ensures Multiply(p, q).q2 == p.q0 * q.q2 - p.q1 * q.q3 + p.q2 * q.q0 + p.q3 * q.q1
    ensures Multiply(p, q).q3 == p.q0 * q.q3 + p.q1 * q.q2 - p.q2 * q.q1 + p.q3 * q.q0
  {
  }

  /** The squared norm of a quaternion whose components are those of the
    * Hamilton product of (a, b, c, d) and (e, f, g, h). */
  lemma NormOfComponents(r: Quaternion, np: real, nq: real,
                         a: real, b: real, c: real, d: real, e: real, f: real, g: real, h: real)
    requires r.q0 == a * e - b * f - c * g - d * h && r.q1 == a * f + b * e + c * h - d * g
    requires r.q2 == a * g - b * h + c * e + d * f && r.q3 == a * h + b * g - c * f + d * e
    requires np == a * a + b * b + c * c + d * d && nq == e * e + f * f + g * g + h * h
    ensures QNormSq(r) == np * nq
  {
    NormSqComponents(r);
    FourSquares(r.q0, r.q1, r.q2, r.q3, np, nq, a, b, c, d, e, f, g, h);
  }

  lemma NormSqComponents(r: Quaternion)
    ensures QNormSq(r) == r.q0 * r.q0 + r.q1 * r.q1 + r.q2 * r.q2 + r.q3 * r.q3
  {
  }

  /** Euler's four-square identity on the components of a Hamilton product. */
  lemma FourSquares(s0: real, s1: real, s2: real, s3: real, np: real, nq: real,
                    a: real, b: real, c: real, d: real, e: real, f: real, g: real, h: real)
    requires s0 == a * e - b * f - c * g - d * h && s1 == a * f + b * e + c * h - d * g
    requires s2 == a * g - b * h + c * e + d * f && s3 == a * h + b * g - c * f + d * e
    requires np == a * a + b * b + c * c + d * d && nq == e * e + f * f + g * g + h * h
    ensures s0 * s0 + s1 * s1 + s2 * s2 + s3 * s3 == np * nq
  {
    ComponentSquare0(s0, a, b, c, d, e, f, g, h);
    ComponentSquare1(s1, a, b, c, d, e, f, g, h);
    ComponentSquare2(s2, a, b, c, d, e, f, g, h);
    ComponentSquare3(s3, a, b, c, d, e, f, g, h);
    CrossTermsCancel(a, b, c, d, e, f, g, h);
    ProductOfSums(np, nq, a, b, c, d, e, f, g, h);
    AddExpansions(s0 * s0, s1 * s1, s2 * s2, s3 * s3,
                  Squares0(a, b, c, d, e, f, g, h), Squares1(a, b, c, d, e, f, g, h),
                  Squares2(a, b, c, d, e, f, g, h), Squares3(a, b, c, d, e, f, g, h),
                  Cross0(a, b, c, d, e, f, g, h), Cross1(a, b, c, d, e, f, g, h),
                  Cross2(a, b, c, d, e, f, g, h), Cross3(a, b, c, d, e, f, g, h),
                  np * nq);
  }

  /** Four expansions whose cross parts cancel and whose square parts make up
    * `total` add up to `total`. */
  lemma AddExpansions(s0: real, s1: real, s2: real, s3: real, x0: real, x1: real, x2: real, x3: real,
                      c0: real, c1: real, c2: real, c3: real, total: real)
    requires s0 == x0 + 2.0 * c0 && s1 == x1 + 2.0 * c1 && s2 == x2 + 2.0 * c2 && s3 == x3 + 2.0 * c3
    requires c0 + c1 + c2 + c3 == 0.0 && x0 + x1 + x2 + x3 == total
    ensures s0 + s1 + s2 + s3 == total
  {
  }

  /** The squared products and the cross products in the square of each
    * component of a Hamilton product. */
  function Squares0(a: real, b: real, c: real, d: real, e: real, f: real, g: real, h: real): real {
    (a * e) * (a * e) + (b * f) * (b * f) + (c * g) * (c * g) + (d * h) * (d * h)
  }

  function Cross0(a: real, b: real, c: real, d: real, e: real, f: real, g: real, h: real): real {
    -(a * e) * (b * f) - (a * e) * (c * g) - (a * e) * (d * h) + (b * f) * (c * g) + (b * f) * (d * h) + (c * g) * (d * h)
  }

  function Squares1(a: real, b: real, c: real, d: real, e: real, f: real, g: real, h: real): real {
    (a * f) * (a * f) + (b * e) * (b * e) + (c * h) * (c * h) + (d * g) * (d * g)
  }

  function Cross1(a: real, b: real, c: real, d: real, e: real, f: real, g: real, h: real): real {
    (a * f) * (b * e) + (a * f) * (c * h) - (a * f) * (d * g) + (b * e) * (c * h) - (b * e) * (d * g) - (c * h) * (d * g)
  }

  function Squares2(a: real, b: real, c: real, d: real, e: real, f: real, g: real, h: real): real {
    (a * g) * (a * g) + (b * h) * (b * h) + (c * e) * (c * e) + (d * f) * (d * f)
  }

  function Cross2(a: real, b: real, c: real, d: real, e: real, f: real, g: real, h: real): real {
    -(a * g) * (b * h) + (a * g) * (c * e) + (a * g) * (d * f) - (b * h) * (c * e) - (b * h) * (d * f) + (c * e) * (d * f)
  }

  function Squares3(a: real, b: real, c: real, d: real, e: real, f: real, g: real, h: real): real {
    (a * h) * (a * h) + (b * g) * (b * g) + (c * f) * (c * f) + (d * e) * (d * e)
  }

  function Cross3(a: real, b: real, c: real, d: real, e: real, f: real, g: real, h: real): real {
    (a * h) * (b * g) - (a * h) * (c * f) + (a * h) * (d * e) - (b * g) * (c * f) + (b * g) * (d * e) - (c * f) * (d * e)
  }

  /** The square of the first component of a Hamilton product. */
  lemma ComponentSquare0(s: real, a: real, b: real, c: real, d: real, e: real, f: real, g: real, h: real)
    requires s == (a * e) - (b * f) - (c * g) - (d * h)
    ensures s * s == Squares0(a, b, c, d, e, f, g, h) + 2.0 * Cross0(a, b, c, d, e, f, g, h)
  {
  }

  /** The square of the second component of a Hamilton product. */
  lemma ComponentSquare1(s: real, a: real, b: real, c: real, d: real, e: real, f: real, g: real, h: real)
    requires s == (a * f) + (b * e) + (c * h) - (d * g)
    ensures s * s == Squares1(a, b, c, d, e, f, g, h) + 2.0 * Cross1(a, b, c, d, e, f, g, h)
  {
  }

  /** The square of the third component of a Hamilton product. */
  lemma ComponentSquare2(s: real, a: real, b: real, c: real, d: real, e: real, f: real, g: real, h: real)
    requires s == (a * g) - (b * h) + (c * e) + (d * f)
    ensures s * s == Squares2(a, b, c, d, e, f, g, h) + 2.0 * Cross2(a, b, c, d, e, f, g, h)
  {
  }

  /** The square of the fourth component of a Hamilton product. */
  lemma ComponentSquare3(s: real, a: real, b: real, c: real, d: real, e: real, f: real, g: real, h: real)
    requires s == (a * h) + (b * g) - (c * f) + (d * e)
    ensures s * s == Squares3(a, b, c, d, e, f, g, h) + 2.0 * Cross3(a, b, c, d, e, f, g, h)
  {
  }

  /** The cross products of the four squared components of a Hamilton product
    * add up to zero. */
  lemma CrossTermsCancel(a: real, b: real, c: real, d: real, e: real, f: real, g: real, h: real)
    ensures Cross0(a, b, c, d, e, f, g, h) + Cross1(a, b, c, d, e, f, g, h)
      + Cross2(a, b, c, d, e, f, g, h) + Cross3(a, b, c, d, e, f, g, h) == 0.0
  {
  }

  /** The product of the two squared norms, as the sum of the sixteen squared
    * products. */
  lemma ProductOfSums(np: real, nq: real, a: real, b: real, c: real, d: real, e: real, f: real, g: real, h: real)
    requires np == a * a + b * b + c * c + d * d && nq == e * e + f * f + g * g + h * h
    ensures np * nq
      == Squares0(a, b, c, d, e, f, g, h) + Squares1(a, b, c, d, e, f, g, h)
       + Squares2(a, b, c, d, e, f, g, h) + Squares3(a, b, c, d, e, f, g, h)
  {
  }

  lemma MultiplyIdentity(p: Quaternion)
    ensures Multiply(p, QuaternionIdentity) == p
  {
  }

  /** With no rotation (zero spin or zero step) the attitude is unchanged. */
  lemma WilcoxWithoutRotation(qi: Quaternion, spin: Vec3, dt: real)
    requires spin == Zero || dt == 0.0
    ensures Wilcox(qi, spin, dt) == qi
  {
    assert Scale(dt, spin) == Zero;
    assert DeltaQ(Zero) == QuaternionIdentity;
    MultiplyIdentity(qi);
  }

  /** A unit attitude stays a unit quaternion up to the fourth-order drift of
    * the increment. */
  lemma WilcoxNormDrift(qi: Quaternion, spin: Vec3, dt: real)
    requires QNormSq(qi) == 1.0
    ensures var s := NormSq(Scale(dt, spin));
      QNormSq(Wilcox(qi, spin, dt)) == 1.0 - s * s / 192.0 + s * s * s / 2304.0
  {
    MultiplyNorm(qi, DeltaQ(Scale(dt, spin)));
    DeltaQNorm(Scale(dt, spin));
  }

  /**
   * StepHandler: the fixed-step handler keeps the integration time step; its
   * handleStep does nothing, whether the step is the last one or not (the
   * method has no modifies clause, so it changes no state).
   */
  class StepHandler {
    const integrationTimeStep: real

    constructor (stepSize: real)
      ensures integrationTimeStep == stepSize
    {
      integrationTimeStep := stepSize;
    }

    method HandleStep(currentDate: real, isLast: bool) {
      if isLast {
        return;
      }
    }
  }
}
