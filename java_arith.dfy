// The integer arithmetic of the Java platform that the simulation loop and the
// configuration check rely on: two's-complement wrap-around of int and long,
// the cast of a double to a long, rounding to the nearest long and floorMod.

module JavaArith {
  const TwoTo32: int := 0x1_0000_0000
  const TwoTo64: int := 0x1_0000_0000_0000_0000
  const IntMinValue: int := -0x8000_0000
  const IntMaxValue: int := 0x7FFF_FFFF
  const LongMinValue: int := -0x8000_0000_0000_0000
  const LongMaxValue: int := 0x7FFF_FFFF_FFFF_FFFF

  /** The int holding the low 32 bits of `x`. */
  function WrapInt(x: int): (r: int)
    ensures IntMinValue <= r <= IntMaxValue && (x - r) % TwoTo32 == 0
    ensures IntMinValue <= x <= IntMaxValue ==> r == x
  {
    (x - IntMinValue) % TwoTo32 + IntMinValue
  }

  /** The long holding the low 64 bits of `x`. */
  function WrapLong(x: int): (r: int)
    ensures LongMinValue <= r <= LongMaxValue && (x - r) % TwoTo64 == 0
    ensures LongMinValue <= x <= LongMaxValue ==> r == x
  {
    (x - LongMinValue) % TwoTo64 + LongMinValue
  }

  /** The integer part of `x`, rounded toward zero. */
  function Truncate(x: real): (r: int)
    ensures x >= 0.0 ==> r as real <= x < r as real + 1.0
    ensures x < 0.0 ==> r as real - 1.0 < x <= r as real
  {
    if x >= 0.0 then x.Floor else -((-x).Floor)
  }

  /** The cast of a double to a long: toward zero, saturated at the bounds. */
  function DoubleToLong(x: real): (r: int)
    ensures LongMinValue <= r <= LongMaxValue
    ensures LongMinValue as real <= x <= LongMaxValue as real ==> r == Truncate(x)
    ensures x > 0.0 ==> r >= 0
  {
    if x >= LongMaxValue as real then LongMaxValue
    else if x <= LongMinValue as real then LongMinValue
    else Truncate(x)
  }

  /** Rounding to the nearest long, halves upward: floor(x + 1/2), saturated. */
  function Round(x: real): (r: int)
    ensures LongMinValue <= r <= LongMaxValue
    ensures LongMinValue as real <= x + 0.5 < LongMaxValue as real ==> r as real <= x + 0.5 < r as real + 1.0
  {
    var f := (x + 0.5).Floor;
    if f > LongMaxValue then LongMaxValue else if f < LongMinValue then LongMinValue else f
  }

  /** floorMod: the remainder of the division rounded toward negative
    * infinity, which takes the sign of the divisor. */
  function FloorMod(x: int, m: int): (r: int)
    requires m != 0
    ensures m > 0 ==> 0 <= r < m
    ensures m < 0 ==> m < r <= 0
    ensures m > 0 ==> r == x % m
    ensures m < 0 ==> r == x % m || r == x % m + m
    ensures r == 0 <==> x % m == 0
  {
    var e := x % m;
    if m < 0 && e != 0 then e + m else e
  }

  /** Quotient and remainder of Euclidean division are the only ones of their kind. */
  lemma EuclideanUnique(x: int, m: int, q: int, r: int)
    requires m != 0 && 0 <= r < (if m > 0 then m else -m) && x == q * m + r
    ensures x % m == r
  {
    var k := x / m;
    var e := x % m;
    assert x == k * m + e;
    assert (q - k) * m == e - r;
    if q > k {
      if m > 0 { MulAtLeast(q - k, m); } else { MulAtLeast(q - k, -m); }
      assert false;
    } else if q < k {
      if m > 0 { MulAtLeast(k - q, m); } else { MulAtLeast(k - q, -m); }
      assert false;
    }
  }

  lemma MulAtLeast(a: int, b: int)
    requires a >= 1 && b >= 0
    ensures a * b >= b
  {
  }

  /** floorMod is x - floor(x / m)·m, the floor taken over the exact quotient. */
  lemma FloorModIsFloorRemainder(x: int, m: int)
    requires m != 0
    ensures FloorMod(x, m) == x - (x as real / m as real).Floor * m
  {
    var q := (x as real / m as real).Floor;
    var r := x - q * m;
    FloorQuotientBounds(x, m);
    if m > 0 {
      EuclideanUnique(x, m, q, r);
    } else if r == 0 {
      EuclideanUnique(x, m, q, 0);
    } else {
      EuclideanUnique(x, m, q + 1, r - m);
    }
  }

  /** The remainder left by the floor of the exact quotient has the sign of the divisor. */
  lemma FloorQuotientBounds(x: int, m: int)
    requires m != 0
    ensures var r := x - (x as real / m as real).Floor * m;
      (m > 0 ==> 0 <= r < m) && (m < 0 ==> m < r <= 0)
  {
    var y := x as real / m as real;
    var q := y.Floor;
    assert q as real <= y < (q + 1) as real;
    assert y * m as real == x as real;
    Sandwich(y, m as real, x as real, q as real, (q + 1) as real);
    CastMul(q, m);
    CastMul(q + 1, m);
  }

  /** y between lo and hi, multiplied by a non-zero factor. */
  lemma Sandwich(y: real, f: real, p: real, lo: real, hi: real)
    requires f != 0.0 && y * f == p && lo <= y < hi
    ensures f > 0.0 ==> lo * f <= p < hi * f
    ensures f < 0.0 ==> lo * f >= p > hi * f
  {
    if f > 0.0 {
      RealMulMonotone(lo, y, f);
      RealMulStrict(y, hi, f);
    } else {
      var g := -f;
      RealMulMonotone(lo, y, g);
      RealMulStrict(y, hi, g);
      NegateProduct(lo, f);
      NegateProduct(hi, f);
      NegateProduct(y, f);
    }
  }

  lemma NegateProduct(a: real, b: real)
    ensures a * (-b) == -(a * b)
  {
  }

  lemma CastMul(a: int, b: int)
    ensures (a * b) as real == a as real * b as real
  {
  }

  lemma RealMulMonotone(a: real, b: real, c: real)
    requires a <= b && c >= 0.0
    ensures a * c <= b * c
  {
  }

  lemma RealMulStrict(a: real, b: real, c: real)
    requires a < b && c > 0.0
    ensures a * c < b * c
  {
  }
}
