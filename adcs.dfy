// The attitude determination and control logic: the saturating ADCS
// magnetorquers, the identity-orientation magnetorquers of the actuators
// package, the first-order low-pass filter, the B-dot estimator and the
// B-dot controller.

module Saturation {
  function Abs(x: real): (r: real)
    ensures r >= 0.0 && (r == x || r == -x)
  {
    if x < 0.0 then -x else x
  }

  /** The usual clamp of `v` to [lo, hi]. */
  function Clamp(v: real, lo: real, hi: real): real {
    if v < lo then lo else if v > hi then hi else v
  }
}

module AdcsMagnetoTorquers {
  import opened Vectors
  import opened Saturation

  /** Orientation of the magnetorquers (unused by the saturating model). */
  const Orientation: Vec3 := Vec3(1.0, 1.0, 1.0)

  /** The largest dipole on each axis. */
  const MaxDipole: Vec3 := Vec3(0.1, 0.1, 0.1)

  /**
   * One axis of constrainDipole: a value whose magnitude exceeds `max` is
   * replaced by `max` with the sign of the value (-1 when it is negative,
   * +1 otherwise); any other value is kept.
   */
  function ConstrainAxis(v: real, max: real): (r: real)
    ensures max >= 0.0 ==> Abs(r) <= max
    ensures Abs(v) <= max ==> r == v
    ensures max >= 0.0 ==> (v < 0.0 ==> r <= 0.0) && (v > 0.0 ==> r >= 0.0)
  {
    if Abs(v) > max then max * (if 0.0 > v then -1.0 else 1.0) else v
  }

  /** For a non-negative bound, the axis saturation is the clamp to [-max, max]. */
  lemma ConstrainAxisIsClamp(v: real, max: real)
    requires max >= 0.0
    ensures ConstrainAxis(v, max) == Clamp(v, -max, max)
  {
  }

  /** Saturating twice is saturating once. */
  lemma ConstrainAxisIdempotent(v: real, max: real)
    requires max >= 0.0
    ensures ConstrainAxis(ConstrainAxis(v, max), max) == ConstrainAxis(v, max)
  {
  }

  /** computeDipole, i.e. constrainDipole: each axis saturated on its own to
    * the largest dipole. */
  function ComputeDipole(dutyCycle: Vec3): (dipole: Vec3)
    ensures Abs(dipole.x) <= MaxDipole.x && Abs(dipole.y) <= MaxDipole.y && Abs(dipole.z) <= MaxDipole.z
    ensures dipole == Vec3(Clamp(dutyCycle.x, -0.1, 0.1), Clamp(dutyCycle.y, -0.1, 0.1), Clamp(dutyCycle.z, -0.1, 0.1))
  {
    ConstrainAxisIsClamp(dutyCycle.x, MaxDipole.x);
    ConstrainAxisIsClamp(dutyCycle.y, MaxDipole.y);
    ConstrainAxisIsClamp(dutyCycle.z, MaxDipole.z);
    Vec3(ConstrainAxis(dutyCycle.x, MaxDipole.x), ConstrainAxis(dutyCycle.y, MaxDipole.y),
         ConstrainAxis(dutyCycle.z, MaxDipole.z))
  }

  /** A duty cycle already within the bounds is returned unchanged. */
  lemma WithinBoundsUnchanged(dutyCycle: Vec3)
    requires Abs(dutyCycle.x) <= 0.1 && Abs(dutyCycle.y) <= 0.1 && Abs(dutyCycle.z) <= 0.1
    ensures ComputeDipole(dutyCycle) == dutyCycle
  {
  }

  /** The saturation is idempotent. */
  lemma ComputeDipoleIdempotent(dutyCycle: Vec3)
    ensures ComputeDipole(ComputeDipole(dutyCycle)) == ComputeDipole(dutyCycle)
  {
    WithinBoundsUnchanged(ComputeDipole(dutyCycle));
  }
}

module ActuatorMagnetoTorquers {
  import opened Vectors

  const Orientation: Vec3 := Vec3(1.0, 1.0, 1.0)

  /** Set at construction but never applied. */
  const MaxDipole: Vec3 := Vec3(0.1, 0.1, 0.1)

  /** computeDipole: the duty cycle scaled axis by axis by the orientation,
    * which is (1, 1, 1): the duty cycle itself, with no saturation. */
  function ComputeDipole(dutyCycle: Vec3): (dipole: Vec3)
    ensures dipole == dutyCycle
  {
    Mul(dutyCycle, Orientation)
  }

  /** Nothing bounds the dipole: a duty cycle of 1 on x gives 10 times the
    * largest dipole. */
  lemma DipoleIsUnbounded()
    ensures ComputeDipole(Vec3(1.0, 0.0, 0.0)).x == 10.0 * MaxDipole.x
  {
  }

  /** The dipole is linear in the duty cycle. */
  lemma ComputeDipoleIsLinear(k: real, a: Vec3, b: Vec3)
    ensures ComputeDipole(Add(Scale(k, a), b)) == Add(Scale(k, ComputeDipole(a)), ComputeDipole(b))
  {
  }
}

module LowPass {
  import opened Wrappers
  import opened Vectors
  import opened Saturation

  const ConstructorDouble: string := "double"
  const Constructor3d: string := "Vector3D"

  /** One step of the filter: alpha parts of the state, 1 - alpha of the sample. */
  function Blend(alpha: real, state: real, sample: real): real {
    alpha * state + (1.0 - alpha) * sample
  }

  function BlendVec(alpha: real, state: Vec3, sample: Vec3): Vec3 {
    Vec3(Blend(alpha, state.x, sample.x), Blend(alpha, state.y, sample.y), Blend(alpha, state.z, sample.z))
  }

  /** The distance to the sample is multiplied by alpha at each step. */
  lemma BlendError(alpha: real, state: real, sample: real)
    ensures Blend(alpha, state, sample) - sample == alpha * (state - sample)
  {
  }

  /** With 0 <= alpha <= 1 the new state lies between the state and the sample. */
  lemma BlendBetween(alpha: real, state: real, sample: real)
    requires 0.0 <= alpha <= 1.0
    ensures state <= sample ==> state <= Blend(alpha, state, sample) <= sample
    ensures sample <= state ==> sample <= Blend(alpha, state, sample) <= state
  {
    BlendError(alpha, state, sample);
    var d := state - sample;
    if d <= 0.0 {
      ProductNonNeg(alpha, -d);
      ProductNonNeg(1.0 - alpha, -d);
    } else {
      ProductNonNeg(alpha, d);
      ProductNonNeg(1.0 - alpha, d);
    }
  }

  lemma ProductNonNeg(a: real, b: real)
    requires a >= 0.0 && b >= 0.0
    ensures a * b >= 0.0
  {
  }

  /** A sample equal to the state leaves the state where it is. */
  lemma BlendFixedPoint(alpha: real, state: real)
    ensures Blend(alpha, state, state) == state
  {
  }

  /** The exponential, as far as the filters rely on it: one at zero,
    * positive and strictly increasing. */
  ghost predicate Exponential(exp: real -> real) {
    && exp(0.0) == 1.0
    && (forall x: real :: exp(x) > 0.0)
    && (forall a: real, b: real :: a < b ==> exp(a) < exp(b))
  }

  class LowPassFilter {
    const timeConstant: real
    const samplePeriodMili: real
    const alpha: real
    /** Which constructor built the filter. */
    const flag: string
    var state: real
    /** The vector state; none (null) for a filter built on a scalar. */
    var state3d: Option<Vec3>

    /** The scalar filter: alpha = exp(spms / tc). */
    constructor Scalar(tc: real, spms: real, initialState: real, exp: real -> real)
      requires tc != 0.0
      ensures timeConstant == tc && samplePeriodMili == spms && alpha == exp(spms / tc)
      ensures state == initialState && state3d == None && flag == ConstructorDouble
    {
      timeConstant := tc;
      samplePeriodMili := spms;
      alpha := exp(spms / tc);
      state := initialState;
      state3d := None;
      flag := ConstructorDouble;
    }

    /** The vector filter: alpha = exp(-spms / tc), state a copy of `initState`. */
    constructor Vector(tc: real, spms: real, initState: Vec3, exp: real -> real)
      requires tc != 0.0
      ensures timeConstant == tc && samplePeriodMili == spms && alpha == exp(-spms / tc)
      ensures state == 0.0 && state3d == Some(initState) && flag == Constructor3d
    {
      timeConstant := tc;
      samplePeriodMili := spms;
      alpha := exp(-spms / tc);
      state := 0.0;
      state3d := Some(Scale(1.0, initState));
      flag := Constructor3d;
    }

    /** ProcessSample(double): the scalar state moves to the blend and is returned. */
    method ProcessSample(newSample: real) returns (r: real)
      modifies this`state
      ensures state == Blend(alpha, old(state), newSample) && r == state
    {
      state := Blend(alpha, state, newSample);
      r := state;
    }

    /** ProcessSample(Vector3D): the same rule on each component of the vector
      * state, which must exist. */
    method ProcessSample3d(newSample: Vec3) returns (r: Vec3)
      requires state3d.Some?
      modifies this`state3d
      ensures state3d == Some(BlendVec(alpha, old(state3d.value), newSample)) && r == state3d.value
    {
      state3d := Some(BlendVec(alpha, state3d.value, newSample));
      r := state3d.value;
    }

    /** The sample period in seconds. */
    function GetSamplePeriod(): (r: real)
      reads this
      ensures r * 1000.0 == samplePeriodMili
    {
      samplePeriodMili / 1000.0
    }

    function GetTimeConstant(): (r: real)
      reads this
      ensures r == timeConstant
    {
      timeConstant
    }
  }

  /** The scalar constructor's alpha exceeds 1 for positive periods. */
  lemma ScalarAlphaAboveOne(tc: real, spms: real, exp: real -> real)
    requires Exponential(exp) && tc > 0.0 && spms > 0.0
    ensures exp(spms / tc) > 1.0
  {
    assert exp(0.0) < exp(spms / tc);
  }

  /** The vector constructor's alpha lies strictly between 0 and 1. */
  lemma VectorAlphaBelowOne(tc: real, spms: real, exp: real -> real)
    requires Exponential(exp) && tc > 0.0 && spms > 0.0
    ensures 0.0 < exp(-spms / tc) < 1.0
  {
    assert exp(-spms / tc) < exp(0.0);
  }

  /** With the scalar constructor's alpha, a constant sample pushes the state
    * away from it: the distance to the sample grows at every step. */
  lemma ScalarFilterDiverges(tc: real, spms: real, exp: real -> real, state: real, sample: real)
    requires Exponential(exp) && tc > 0.0 && spms > 0.0 && state != sample
    ensures Abs(Blend(exp(spms / tc), state, sample) - sample) > Abs(state - sample)
  {
    var alpha := exp(spms / tc);
    ScalarAlphaAboveOne(tc, spms, exp);
    BlendError(alpha, state, sample);
    GrowsAway(alpha, state - sample, Blend(alpha, state, sample) - sample);
  }

  /** A factor above one moves a nonzero distance further from zero. */
  lemma GrowsAway(alpha: real, d: real, e: real)
    requires alpha > 1.0 && d != 0.0 && e == alpha * d
    ensures Abs(e) > Abs(d)
  {
    if d > 0.0 {
      MulAboveOne(alpha, d);
    } else {
      MulAboveOne(alpha, -d);
      assert alpha * -d == -e;
    }
  }

  lemma MulAboveOne(a: real, d: real)
    requires a > 1.0 && d > 0.0
    ensures a * d > d
  {
    assert (a - 1.0) * d == a * d - d;
  }

  /** The scalar filter with the vector constructor's alpha, exp(-spms / tc). */
  function CorrectedScalarAlpha(tc: real, spms: real, exp: real -> real): real
    requires tc != 0.0
  {
    exp(-spms / tc)
  }

  /** With the corrected alpha, which lies strictly between 0 and 1, a constant
    * sample draws the state closer at every step, staying on the same side. */
  lemma CorrectedScalarFilterConverges(tc: real, spms: real, exp: real -> real, state: real, sample: real)
    requires Exponential(exp) && tc > 0.0 && spms > 0.0 && state != sample
    ensures Abs(Blend(CorrectedScalarAlpha(tc, spms, exp), state, sample) - sample) < Abs(state - sample)
    ensures state < sample ==> state <= Blend(CorrectedScalarAlpha(tc, spms, exp), state, sample) <= sample
    ensures sample < state ==> sample <= Blend(CorrectedScalarAlpha(tc, spms, exp), state, sample) <= state
  {
    var alpha := CorrectedScalarAlpha(tc, spms, exp);
    VectorAlphaBelowOne(tc, spms, exp);
    BlendError(alpha, state, sample);
    BlendBetween(alpha, state, sample);
    ShrinksToward(alpha, state - sample, Blend(alpha, state, sample) - sample);
  }

  /** A factor strictly between 0 and 1 brings a nonzero distance closer to zero. */
  lemma ShrinksToward(alpha: real, d: real, e: real)
    requires 0.0 < alpha < 1.0 && d != 0.0 && e == alpha * d
    ensures Abs(e) < Abs(d)
  {
    if d > 0.0 {
      MulBelowOne(alpha, d);
    } else {
      MulBelowOne(alpha, -d);
      assert alpha * -d == -e;
    }
  }

  lemma MulBelowOne(a: real, d: real)
    requires a < 1.0 && d > 0.0
    ensures a * d < d
  {
    assert (1.0 - a) * d == d - a * d;
  }
}

module Bdot {
  import opened Wrappers
  import opened Vectors
  import opened Saturation
  import opened LowPass
  import AdcsMagnetoTorquers

  /** The first-order difference of two field readings over `timestep`. */
  function FirstOrderDiff(reading: Vec3, last: Vec3, timestep: real): (bdot: Vec3)
    requires timestep != 0.0
    ensures Scale(timestep, bdot) == Sub(reading, last)
  {
    Vec3((reading.x - last.x) / timestep, (reading.y - last.y) / timestep, (reading.z - last.z) / timestep)
  }

  class BdotEstimator {
    const lowpassfilter: LowPassFilter
    /** The previous magnetometer reading; the source never sets it before the
      * first difference, so a difference needs one. */
    var lastMagFieldReading: Option<Vec3>
    const timestep: real := 0.1

    /** The filter starts at zero with tc = 5.0 and spms = 0.25; the time step is 0.1. */
    constructor (exp: real -> real)
      ensures fresh(lowpassfilter) && timestep == 0.1 && lastMagFieldReading == None
      ensures lowpassfilter.timeConstant == 5.0 && lowpassfilter.samplePeriodMili == 0.25
      ensures lowpassfilter.alpha == exp(-0.25 / 5.0) && lowpassfilter.state3d == Some(Zero)
    {
      lowpassfilter := new LowPassFilter.Vector(5.0, 0.25, Zero, exp);
      lastMagFieldReading := None;
    }

    /** getFirstOrderDiff: the difference with the last reading over the time
      * step; the reading becomes the last one. */
    method GetFirstOrderDiff(magReading: Vec3) returns (result: Vec3)
      requires lastMagFieldReading.Some?
      modifies this`lastMagFieldReading
      ensures result == FirstOrderDiff(magReading, old(lastMagFieldReading.value), timestep)
      ensures lastMagFieldReading == Some(magReading)
    {
      var last := lastMagFieldReading.value;
      var x := magReading.x - last.x;
      var y := magReading.y - last.y;
      var z := magReading.z - last.z;
      lastMagFieldReading := Some(magReading);
      result := Vec3(x / timestep, y / timestep, z / timestep);
    }

    /** computeBdot: the difference passed once through the filter. */
    method ComputeBdot(magReading: Vec3) returns (bdot: Vec3)
      requires lastMagFieldReading.Some? && lowpassfilter.state3d.Some?
      modifies this`lastMagFieldReading, lowpassfilter`state3d
      ensures lowpassfilter.state3d == Some(BlendVec(lowpassfilter.alpha, old(lowpassfilter.state3d.value),
                                                     FirstOrderDiff(magReading, old(lastMagFieldReading.value), timestep)))
      ensures bdot == lowpassfilter.state3d.value
      ensures lastMagFieldReading == Some(magReading)
    {
      var bDotUnfiltered := GetFirstOrderDiff(magReading);
      bdot := lowpassfilter.ProcessSample3d(bDotUnfiltered);
    }
  }

  /** The controller gains. */
  const BdotGains: Vec3 := Vec3(-54000.0, -54000.0, -54000.0)

  /** The duty cycle as computed: the linear combination 1.0·bdot + 1.0·gains. */
  function DutyCycleAsWritten(bdot: Vec3): Vec3 {
    Add(Scale(1.0, bdot), Scale(1.0, BdotGains))
  }

  class B_Dot {
    const est: BdotEstimator

    constructor (exp: real -> real)
      ensures fresh(est) && fresh(est.lowpassfilter) && est.timestep == 0.1
      ensures est.lastMagFieldReading == None && est.lowpassfilter.state3d == Some(Zero)
    {
      est := new BdotEstimator(exp);
    }

    /** computeDipole: the estimator advanced once, the duty cycle formed from
      * its output and saturated by the ADCS magnetorquers. */
    method ComputeDipole(magReading: Vec3) returns (result: Vec3)
      requires est.lastMagFieldReading.Some? && est.lowpassfilter.state3d.Some?
      modifies est`lastMagFieldReading, est.lowpassfilter`state3d
      ensures est.lowpassfilter.state3d == Some(BlendVec(est.lowpassfilter.alpha, old(est.lowpassfilter.state3d.value),
                                                         FirstOrderDiff(magReading, old(est.lastMagFieldReading.value), est.timestep)))
      ensures est.lastMagFieldReading == Some(magReading)
      ensures result == AdcsMagnetoTorquers.ComputeDipole(DutyCycleAsWritten(est.lowpassfilter.state3d.value))
      ensures -0.1 <= result.x <= 0.1 && -0.1 <= result.y <= 0.1 && -0.1 <= result.z <= 0.1
    {
      var bdot := est.ComputeBdot(magReading);
      var dutyCycle := DutyCycleAsWritten(bdot);
      result := AdcsMagnetoTorquers.ComputeDipole(dutyCycle);
    }
  }

  /** As written, any estimate below 53999.9 in magnitude on every axis gives
    * the same dipole, the largest negative one, whatever the field does. */
  lemma AsWrittenDipoleIsConstant(bdot: Vec3)
    requires Abs(bdot.x) < 53999.9 && Abs(bdot.y) < 53999.9 && Abs(bdot.z) < 53999.9
    ensures AdcsMagnetoTorquers.ComputeDipole(DutyCycleAsWritten(bdot)) == Vec3(-0.1, -0.1, -0.1)
  {
  }

  /** The B-dot law: the gains applied to the estimate, axis by axis. */
  function DutyCycleCorrected(bdot: Vec3): Vec3 {
    Mul(BdotGains, bdot)
  }

  /** The corrected law is bounded, vanishes with the estimate and commands a
    * dipole opposing the field's change on every axis. */
  lemma CorrectedDipoleOpposesBdot(bdot: Vec3, d: Vec3)
    requires d == AdcsMagnetoTorquers.ComputeDipole(DutyCycleCorrected(bdot))
    ensures d.x * bdot.x <= 0.0 && d.y * bdot.y <= 0.0 && d.z * bdot.z <= 0.0
    ensures Dot(d, bdot) <= 0.0
  {
    assert d.x == Clamp(-54000.0 * bdot.x, -0.1, 0.1);
    assert d.y == Clamp(-54000.0 * bdot.y, -0.1, 0.1);
    assert d.z == Clamp(-54000.0 * bdot.z, -0.1, 0.1);
    OpposedAxis(bdot.x, d.x);
    OpposedAxis(bdot.y, d.y);
    OpposedAxis(bdot.z, d.z);
  }

  /** No change of the field, no dipole. */
  lemma CorrectedDipoleVanishes()
    ensures AdcsMagnetoTorquers.ComputeDipole(DutyCycleCorrected(Zero)) == Zero
  {
  }

  lemma OpposedAxis(b: real, d: real)
    requires d == Clamp(-54000.0 * b, -0.1, 0.1)
    ensures d * b <= 0.0
  {
    if b > 0.0 {
      assert d <= 0.0;
    } else if b < 0.0 {
      assert d >= 0.0;
    }
  }
}
