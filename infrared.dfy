// The infrared nadir-sensor helpers: loop-based vector arithmetic over
// arrays, the polynomial model of a sensor's reading as a function of its
// angle to nadir, and the sensor record with its pre-pass that discards
// negative readings.

module InfraredVectors {
  /** Sum of a[i]·b[i] over the indices of `a`. */
  function DotSeq(a: seq<real>, b: seq<real>): real
    requires |b| >= |a|
  {
    if |a| == 0 then 0.0 else DotSeq(a[..|a| - 1], b) + a[|a| - 1] * b[|a| - 1]
  }

  /** Sum of the squares of the components. */
  function SumSquares(v: seq<real>): (r: real)
    ensures r >= 0.0
  {
    if |v| == 0 then 0.0 else SumSquares(v[..|v| - 1]) + v[|v| - 1] * v[|v| - 1]
  }

  function ScaleSeq(v: seq<real>, k: real): (r: seq<real>)
    ensures |r| == |v|
  {
    seq(|v|, i requires 0 <= i < |v| => v[i] * k)
  }

  /** The element-wise result of BasicVectorOperations: a sum for "add", a
    * difference for "minus" and zeros for any other operation. */
  function Combine(a: seq<real>, b: seq<real>, operation: string): (r: seq<real>)
    requires operation == "add" || operation == "minus" ==> |b| >= |a|
    ensures |r| == |a|
  {
    if operation == "add" then seq(|a|, i requires 0 <= i < |a| => a[i] + b[i])
    else if operation == "minus" then seq(|a|, i requires 0 <= i < |a| => a[i] - b[i])
    else seq(|a|, _ => 0.0)
  }

  /** DotProduct: the products accumulated in a loop over `vectorA`. */
  method DotProduct(vectorA: array<real>, vectorB: array<real>) returns (result: real)
    requires vectorB.Length >= vectorA.Length
    ensures result == DotSeq(vectorA[..], vectorB[..])
  {
    result := 0.0;
    var i := 0;
    while i < vectorA.Length
      invariant 0 <= i <= vectorA.Length
      invariant result == DotSeq(vectorA[..i], vectorB[..])
    {
      assert vectorA[..i + 1][..i] == vectorA[..i];
      result := result + vectorA[i] * vectorB[i];
      i := i + 1;
    }
    assert vectorA[..i] == vectorA[..];
  }

  /** Only the first |a| components of `b` take part. */
  lemma {:induction false} DotSeqPrefix(a: seq<real>, b: seq<real>)
    requires |b| >= |a|
    ensures DotSeq(a, b) == DotSeq(a, b[..|a|])
  {
    if |a| > 0 {
      DotSeqPrefix(a[..|a| - 1], b);
      DotSeqPrefix(a[..|a| - 1], b[..|a|]);
      assert b[..|a|][..|a| - 1] == b[..|a| - 1];
    }
  }

  /** On vectors of the same length the dot product is symmetric. */
  lemma {:induction false} DotSeqSymmetric(a: seq<real>, b: seq<real>)
    requires |a| == |b|
    ensures DotSeq(a, b) == DotSeq(b, a)
  {
    if |a| > 0 {
      var n := |a| - 1;
      DotSeqSymmetric(a[..n], b[..n]);
      DotSeqPrefix(a[..n], b);
      DotSeqPrefix(b[..n], a);
      assert b[..n] == b[..n][..n] && a[..n] == a[..n][..n];
    }
  }

  /** The dot product of a vector with itself is its sum of squares. */
  lemma {:induction false} DotSelfIsSumSquares(v: seq<real>)
    ensures DotSeq(v, v) == SumSquares(v)
  {
    if |v| > 0 {
      var n := |v| - 1;
      DotSelfIsSumSquares(v[..n]);
      DotSeqPrefix(v[..n], v);
      assert v[..n][..n] == v[..n];
    }
  }

  /** Scaling the first vector scales the dot product. */
  lemma {:induction false} DotScale(a: seq<real>, b: seq<real>, k: real)
    requires |b| >= |a|
    ensures DotSeq(ScaleSeq(a, k), b) == k * DotSeq(a, b)
  {
    if |a| > 0 {
      var n := |a| - 1;
      DotScale(a[..n], b, k);
      assert ScaleSeq(a, k)[..n] == ScaleSeq(a[..n], k) by {
        forall i | 0 <= i < n
          ensures ScaleSeq(a, k)[..n][i] == ScaleSeq(a[..n], k)[i]
        {
        }
      }
      var d := DotSeq(a[..n], b);
      assert k * (d + a[n] * b[n]) == k * d + a[n] * k * b[n];
    }
  }

  /** The test of DotProduct: (1, 2, 3)·(3, 2, 1) = 10. */
  lemma DotProductExample()
    ensures DotSeq([1.0, 2.0, 3.0], [3.0, 2.0, 1.0]) == 10.0
  {
    assert [1.0, 2.0, 3.0][..2] == [1.0, 2.0];
    assert [1.0, 2.0][..1] == [1.0];
    assert [1.0][..0] == [];
  }

  /** The square root, as far as the magnitude relies on it. */
  ghost predicate IsSqrt(sqrt: real -> real) {
    forall x: real :: x >= 0.0 ==> sqrt(x) >= 0.0 && sqrt(x) * sqrt(x) == x
  }

  /** VectorMagnitude: the root of the squares accumulated in a loop. */
  method VectorMagnitude(vector: array<real>, sqrt: real -> real) returns (result: real)
    ensures result == sqrt(SumSquares(vector[..]))
  {
    var sum := 0.0;
    var i := 0;
    while i < vector.Length
      invariant 0 <= i <= vector.Length
      invariant sum == SumSquares(vector[..i])
    {
      assert vector[..i + 1][..i] == vector[..i];
      sum := sum + vector[i] * vector[i];
      i := i + 1;
    }
    assert vector[..i] == vector[..];
    result := sqrt(sum);
  }

  /** The test of VectorMagnitude: |(3, 4, 0)| = 5. */
  lemma MagnitudeExample(sqrt: real -> real)
    requires IsSqrt(sqrt)
    ensures sqrt(SumSquares([3.0, 4.0, 0.0])) == 5.0
  {
    assert [3.0, 4.0, 0.0][..2] == [3.0, 4.0];
    assert [3.0, 4.0][..1] == [3.0];
    assert [3.0][..0] == [];
    assert SumSquares([3.0, 4.0, 0.0]) == 25.0;
    var s := sqrt(25.0);
    assert s >= 0.0 && s * s == 25.0;
    if s > 5.0 {
      MulStrict(s, 5.0, s);
      MulStrict(s, 5.0, 5.0);
      assert false;
    } else if s < 5.0 {
      MulStrict(5.0, s, 5.0);
      if s > 0.0 {
        MulStrict(5.0, s, s);
      }
      assert false;
    }
  }

  lemma MulStrict(a: real, b: real, c: real)
    requires a > b && c > 0.0
    ensures a * c > b * c
  {
  }

  /** VectorScalarMultiplier: a fresh array holding each component times the scalar. */
  method VectorScalarMultiplier(vector: array<real>, scalar: real) returns (result: array<real>)
    ensures fresh(result) && result[..] == ScaleSeq(vector[..], scalar)
  {
    result := new real[vector.Length];
    var i := 0;
    while i < vector.Length
      invariant 0 <= i <= vector.Length
      invariant forall j :: 0 <= j < i ==> result[j] == vector[j] * scalar
    {
      result[i] := vector[i] * scalar;
      i := i + 1;
    }
    assert forall j :: 0 <= j < vector.Length ==> result[..][j] == ScaleSeq(vector[..], scalar)[j];
  }

  /** BasicVectorOperations: a fresh array of the length of `vectorA`, filled
    * by the loop of the operation named, and left at zero for any other name. */
  method BasicVectorOperations(vectorA: array<real>, vectorB: array<real>, operation: string)
    returns (result: array<real>)
    requires operation == "add" || operation == "minus" ==> vectorB.Length >= vectorA.Length
    ensures fresh(result) && result[..] == Combine(vectorA[..], vectorB[..], operation)
  {
    result := new real[vectorA.Length](_ => 0.0);
    if operation == "add" {
      var i := 0;
      while i < vectorA.Length
        invariant 0 <= i <= vectorA.Length
        invariant forall j :: 0 <= j < i ==> result[j] == vectorA[j] + vectorB[j]
      {
        result[i] := vectorA[i] + vectorB[i];
        i := i + 1;
      }
    } else if operation == "minus" {
      var i := 0;
      while i < vectorA.Length
        invariant 0 <= i <= vectorA.Length
        invariant forall j :: 0 <= j < i ==> result[j] == vectorA[j] - vectorB[j]
      {
        result[i] := vectorA[i] - vectorB[i];
        i := i + 1;
      }
    }
  }

  /** Subtracting what was added gives the first vector back. */
  lemma AddThenMinus(a: seq<real>, b: seq<real>)
    requires |b| >= |a|
    ensures Combine(Combine(a, b, "add"), b, "minus") == a
  {
  }

  /** Any operation other than "add" and "minus" gives the zero vector. */
  lemma UnknownOperationIsZero(a: seq<real>, b: seq<real>, operation: string)
    requires operation != "add" && operation != "minus"
    ensures forall i :: 0 <= i < |a| ==> Combine(a, b, operation)[i] == 0.0
  {
  }
}

module InfraredModel {
  /** Math.pow for a natural exponent. */
  function Power(x: real, n: nat): real {
    if n == 0 then 1.0 else x * Power(x, n - 1)
  }

  /** Math.toDegrees, with the value of pi a parameter. */
  function ToDegrees(angle: real, pi: real): real
    requires pi > 0.0
  {
    angle * 180.0 / pi
  }

  /** The ninth-order polynomial fit of the infrared curve, in degrees. */
  function InfraredFit(x: real): real {
    1.102e-18 * Power(x, 9) + -7.798e-16 * Power(x, 8) + 2.199e-13 * Power(x, 7) + -3.177e-11 * Power(x, 6)
    + 2.582e-09 * Power(x, 5) + -1.337e-07 * Power(x, 4) + 6.267e-06 * Power(x, 3) + -0.0003285 * Power(x, 2)
    + 0.003188 * x + 0.9872
  }

  /** AngleToInfrared: the fit at the angle in degrees, raised to 0 when negative. */
  function AngleToInfrared(angle: real, pi: real): (r: real)
    requires pi > 0.0
    ensures r >= 0.0
    ensures InfraredFit(ToDegrees(angle, pi)) >= 0.0 ==> r == InfraredFit(ToDegrees(angle, pi))
    ensures InfraredFit(ToDegrees(angle, pi)) < 0.0 ==> r == 0.0
  {
    var result := InfraredFit(ToDegrees(angle, pi));
    if result < 0.0 then 0.0 else result
  }

  /** The tests' three angles: facing nadir the reading is 0.9872 (above 0.9),
    * at a right angle it is below 0.45, and facing away the fit is negative
    * and the reading is clamped to 0. */
  lemma AngleToInfraredExamples(pi: real)
    requires pi > 0.0
    ensures AngleToInfrared(0.0, pi) == 0.9872
    ensures AngleToInfrared(pi / 2.0, pi) < 0.45
    ensures InfraredFit(ToDegrees(pi, pi)) < 0.0 && AngleToInfrared(pi, pi) == 0.0
  {
    assert ToDegrees(0.0, pi) == 0.0;
    assert ToDegrees(pi / 2.0, pi) == 90.0;
    assert ToDegrees(pi, pi) == 180.0;
    assert Power(90.0, 9) == 387420489000000000.0;
    assert Power(180.0, 9) == 198359290368000000000.0;
  }
}

module InfraredSensors {
  import opened InfraredVectors
  import opened InfraredModel

  /** Each int converted to a double. */
  function AsReals(v: seq<int>): (r: seq<real>)
    ensures |r| == |v| && forall i :: 0 <= i < |v| ==> r[i] == v[i] as real
  {
    seq(|v|, i requires 0 <= i < |v| => v[i] as real)
  }

  /** The readings of one side sensor and the normal of its side. */
  class SensorData {
    var infraredReading: real
    var angleReading: real
    /** The side normal, held by reference (the caller's array is not copied). */
    var sideNormal: array<int>

    constructor (sideNormalVector: array<int>)
      ensures infraredReading == 0.0 && angleReading == 0.0 && sideNormal == sideNormalVector
    {
      infraredReading := 0.0;
      angleReading := 0.0;
      sideNormal := sideNormalVector;
    }

    /** getSideNormal: a fresh array of doubles converted from the stored normal. */
    method GetSideNormal() returns (result: array<real>)
      ensures fresh(result) && result[..] == AsReals(sideNormal[..])
    {
      result := new real[sideNormal.Length];
      var i := 0;
      while i < sideNormal.Length
        invariant 0 <= i <= sideNormal.Length
        invariant forall j :: 0 <= j < i ==> result[j] == sideNormal[j] as real
      {
        result[i] := sideNormal[i] as real;
        i := i + 1;
      }
      assert result[..] == AsReals(sideNormal[..]);
    }

    method SetInfraredReading(value: real)
      modifies this`infraredReading
      ensures infraredReading == value
    {
      infraredReading := value;
    }

    method SetAngleReading(value: real)
      modifies this`angleReading
      ensures angleReading == value
    {
      angleReading := value;
    }

    method SetSideNormal(value: array<int>)
      modifies this`sideNormal
      ensures sideNormal == value
    {
      sideNormal := value;
    }

    /** ConvertAngleToInfrared: the reading the polynomial model gives for the angle. */
    method ConvertAngleToInfrared(pi: real)
      requires pi > 0.0
      modifies this`infraredReading
      ensures infraredReading == AngleToInfrared(angleReading, pi) && infraredReading >= 0.0
    {
      infraredReading := AngleToInfrared(angleReading, pi);
    }

    /**
     * CalculateAngleFromNadir: acos of the dot product of the nadir vector with
     * (a copy of) the side normal over the nadir's magnitude. The nadir vector
     * must have a non-zero magnitude and no more components than the normal.
     */
    method CalculateAngleFromNadir(nadir: array<real>, acos: real -> real, sqrt: real -> real)
      requires sideNormal.Length >= nadir.Length && sqrt(SumSquares(nadir[..])) != 0.0
      modifies this`angleReading
      ensures angleReading == acos(DotSeq(nadir[..], AsReals(sideNormal[..])) / sqrt(SumSquares(nadir[..])))
    {
      var normal := GetSideNormal();
      assert normal[..] == AsReals(sideNormal[..]);
      var dot := DotProduct(nadir, normal);
      var magnitude := VectorMagnitude(nadir, sqrt);
      angleReading := acos(dot / magnitude);
    }
  }

  /** The state of a sensor discarded by the threshold pass. */
  ghost predicate Discarded(s: SensorData, halfPi: real)
    reads s, s.sideNormal
  {
    s.sideNormal[..] == [0, 0, 0] && s.angleReading == halfPi
  }

  /**
   * The first pass of NadirVectorDetermination: every sensor whose infrared
   * reading is below the threshold 0 gets the normal (0, 0, 0), in a new
   * array, and the angle pi/2; other sensors and all readings are left as
   * they are.
   */
  method DiscardBelowThreshold(sensors: array<SensorData>, halfPi: real)
    modifies set i | 0 <= i < sensors.Length :: sensors[i]
    ensures forall i :: 0 <= i < sensors.Length ==>
      sensors[i].infraredReading == old(sensors[i].infraredReading)
    ensures forall i :: 0 <= i < sensors.Length && sensors[i].infraredReading < 0.0 ==>
      fresh(sensors[i].sideNormal) && Discarded(sensors[i], halfPi)
    ensures forall i :: 0 <= i < sensors.Length && sensors[i].infraredReading >= 0.0 ==>
      sensors[i].sideNormal == old(sensors[i].sideNormal) && sensors[i].angleReading == old(sensors[i].angleReading)
  {
    var infraredThreshold := 0.0;
    var i := 0;
    while i < sensors.Length
      invariant 0 <= i <= sensors.Length
      invariant forall j :: 0 <= j < sensors.Length ==>
        sensors[j].infraredReading == old(sensors[j].infraredReading)
      invariant forall j :: 0 <= j < sensors.Length && sensors[j].infraredReading >= 0.0 ==>
        sensors[j].sideNormal == old(sensors[j].sideNormal) && sensors[j].angleReading == old(sensors[j].angleReading)
      invariant forall j :: 0 <= j < sensors.Length && sensors[j].infraredReading < 0.0 ==>
        (fresh(sensors[j].sideNormal) && Discarded(sensors[j], halfPi)) ||
        (j >= i && sensors[j].sideNormal == old(sensors[j].sideNormal) && sensors[j].angleReading == old(sensors[j].angleReading))
    {
      if sensors[i].infraredReading < infraredThreshold {
        var zero := new int[3](_ => 0);
        sensors[i].SetSideNormal(zero);
        sensors[i].SetAngleReading(halfPi);
      }
      i := i + 1;
    }
  }
}
