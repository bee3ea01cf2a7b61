// The change of interval of a Gauss quadrature rule: the points and weights
// of a rule on the natural interval [-1, 1] remapped in place to [a, b],
// and the Gauss-Legendre integrator on [a, b] built from it.

module GaussTransform {
  import opened Wrappers

  /** A rule as a pair of arrays: the points and their weights. */
  datatype Rule = Rule(points: array<real>, weights: array<real>)

  /** The affine map of [-1, 1] onto [a, b]: x·(b-a)/2 + (a + (b-a)/2). */
  function Remap(x: real, a: real, b: real): real {
    x * ((b - a) / 2.0) + (a + (b - a) / 2.0)
  }

  /** The inverse of the map, when the interval is not a single point. */
  function Unmap(y: real, a: real, b: real): real
    requires a != b
  {
    (y - (a + (b - a) / 2.0)) / ((b - a) / 2.0)
  }

  lemma UnmapRemap(x: real, a: real, b: real)
    requires a != b
    ensures Unmap(Remap(x, a, b), a, b) == x && Remap(Unmap(x, a, b), a, b) == x
  {
  }

  /** The ends and the middle of [-1, 1] go to the ends and the middle of [a, b]. */
  lemma RemapEnds(a: real, b: real)
    ensures Remap(-1.0, a, b) == a && Remap(1.0, a, b) == b && Remap(0.0, a, b) == (a + b) / 2.0
  {
  }

  /** For b > a the map is strictly increasing, so the order of the points is kept. */
  lemma RemapIncreasing(x: real, y: real, a: real, b: real)
    requires b > a && x < y
    ensures Remap(x, a, b) < Remap(y, a, b)
  {
    var s := (b - a) / 2.0;
    var c := a + (b - a) / 2.0;
    assert Remap(x, a, b) == x * s + c && Remap(y, a, b) == y * s + c;
    PositiveProduct(y - x, s);
    DiffTimes(y, x, s);
  }

  lemma DiffTimes(y: real, x: real, s: real)
    ensures (y - x) * s == y * s - x * s
  {
  }

  lemma PositiveProduct(u: real, v: real)
    requires u > 0.0 && v > 0.0
    ensures u * v > 0.0
  {
  }

  function RemapAll(p: seq<real>, a: real, b: real): (r: seq<real>)
    ensures |r| == |p|
  {
    seq(|p|, i requires 0 <= i < |p| => Remap(p[i], a, b))
  }

  /** The weights scaled by (b-a)/2 for the first n of them, the rest as they are. */
  function ScaleWeights(w: seq<real>, n: nat, a: real, b: real): (r: seq<real>)
    requires n <= |w|
    ensures |r| == |w|
  {
    seq(|w|, i requires 0 <= i < |w| => if i < n then w[i] * ((b - a) / 2.0) else w[i])
  }

  /**
   * transform: each point x becomes x·scale + shift and each of the first
   * points.length weights is multiplied by scale, in place; the same arrays
   * are returned. When the two arrays are one, both updates apply to it in
   * turn.
   */
  method Transform(rule: Rule, a: real, b: real) returns (r: Rule)
    requires rule.weights.Length >= rule.points.Length
    modifies rule.points, rule.weights
    ensures r == rule
    ensures rule.points != rule.weights ==>
      rule.points[..] == RemapAll(old(rule.points[..]), a, b) &&
      rule.weights[..] == ScaleWeights(old(rule.weights[..]), rule.points.Length, a, b)
    ensures rule.points == rule.weights ==>
      rule.points[..] == ScaleWeights(RemapAll(old(rule.points[..]), a, b), rule.points.Length, a, b)
  {
    if rule.points != rule.weights {
      TransformSeparate(rule.points, rule.weights, a, b);
    } else {
      TransformShared(rule.points, a, b);
    }
    r := rule;
  }

  /** The loop of transform over two distinct arrays. */
  method TransformSeparate(points: array<real>, weights: array<real>, a: real, b: real)
    requires points != weights && weights.Length >= points.Length
    modifies points, weights
    ensures points[..] == RemapAll(old(points[..]), a, b)
    ensures weights[..] == ScaleWeights(old(weights[..]), points.Length, a, b)
  {
    var scale := (b - a) / 2.0;
    var shift := a + scale;
    ghost var p := points[..];
    ghost var w := weights[..];
    ghost var rp := RemapAll(p, a, b);
    ghost var sw := ScaleWeights(w, points.Length, a, b);
    var i := 0;
    while i < points.Length
      invariant 0 <= i <= points.Length
      invariant points[..] == rp[..i] + p[i..]
      invariant weights[..] == sw[..i] + w[i..]
    {
      assert points[i] == p[i] && weights[i] == w[i];
      Splice(rp, p, i);
      Splice(sw, w, i);
      var np := points[i] * scale + shift;
      var nw := weights[i] * scale;
      assert np == rp[i] && nw == sw[i];
      points[i] := np;
      weights[i] := nw;
      i := i + 1;
    }
  }

  /** The loop of transform when the points and the weights are one array:
    * each element is first remapped and then scaled. */
  method TransformShared(points: array<real>, a: real, b: real)
    modifies points
    ensures points[..] == ScaleWeights(RemapAll(old(points[..]), a, b), points.Length, a, b)
  {
    var scale := (b - a) / 2.0;
    var shift := a + scale;
    ghost var q := ScaleWeights(RemapAll(points[..], a, b), points.Length, a, b);
    ghost var p := points[..];
    var i := 0;
    while i < points.Length
      invariant 0 <= i <= points.Length
      invariant points[..] == q[..i] + p[i..]
    {
      assert points[i] == p[i];
      Splice(q, p, i);
      var np := points[i] * scale + shift;
      assert np == RemapAll(p, a, b)[i];
      points[i] := np;
      var nw := points[i] * scale;
      assert nw == q[i];
      points[i] := nw;
      i := i + 1;
    }
  }

  /** Writing the i-th element of a result into a sequence that holds the
    * result's first i elements and then the input's moves the split by one. */
  lemma Splice(x: seq<real>, y: seq<real>, i: nat)
    requires |x| == |y| && i < |x|
    ensures (x[..i] + y[i..])[i := x[i]] == x[..i + 1] + y[i + 1..]
  {
  }

  function Sum(w: seq<real>): real {
    if |w| == 0 then 0.0 else Sum(w[..|w| - 1]) + w[|w| - 1]
  }

  /** Scaling every weight scales their sum: a rule that integrates 1 exactly
    * over [-1, 1] (weights summing to 2) integrates it exactly over [a, b]. */
  lemma {:induction false} SumOfScaledWeights(w: seq<real>, a: real, b: real)
    ensures Sum(ScaleWeights(w, |w|, a, b)) == Sum(w) * ((b - a) / 2.0)
    ensures Sum(w) == 2.0 ==> Sum(ScaleWeights(w, |w|, a, b)) == b - a
  {
    if |w| > 0 {
      var n := |w| - 1;
      var s := (b - a) / 2.0;
      var sw := ScaleWeights(w, |w|, a, b);
      SumOfScaledWeights(w[..n], a, b);
      assert sw[..n] == ScaleWeights(w[..n], n, a, b) by {
        forall i | 0 <= i < n
          ensures sw[..n][i] == ScaleWeights(w[..n], n, a, b)[i]
        {
          assert sw[..n][i] == sw[i] == w[i] * s;
          assert w[..n][i] == w[i];
        }
      }
      assert Sum(sw) == Sum(w[..n]) * s + w[n] * s;
      assert Sum(w) == Sum(w[..n]) + w[n];
      SumTimes(Sum(w[..n]), w[n], s);
    }
  }

  lemma SumTimes(x: real, y: real, s: real)
    ensures (x + y) * s == x * s + y * s
  {
  }

  /** A Gauss integrator: its points and weights. */
  datatype GaussIntegrator = GaussIntegrator(points: seq<real>, weights: seq<real>)

  /** Points in strictly increasing order, as the integrator's constructor
    * demands of them. */
  predicate StrictlyIncreasing(p: seq<real>) {
    forall i, j :: 0 <= i < j < |p| ==> p[i] < p[j]
  }

  /**
   * legendre(n, a, b): the Gauss-Legendre rule of n points on [-1, 1] (computed
   * by the rule factory and given here as `rulePoints` and `ruleWeights`),
   * copied into fresh arrays, transformed to [a, b] and made an integrator.
   * A count that is not positive is refused by the factory, and points that
   * are not strictly increasing by the integrator's constructor (None).
   */
  method Legendre(numberOfPoints: int, rulePoints: seq<real>, ruleWeights: seq<real>, a: real, b: real)
    returns (g: Option<GaussIntegrator>)
    requires numberOfPoints > 0 ==> |rulePoints| == numberOfPoints && |ruleWeights| == numberOfPoints
    ensures numberOfPoints <= 0 ==> g == None
    ensures numberOfPoints > 0 ==> (g.Some? <==> StrictlyIncreasing(RemapAll(rulePoints, a, b)))
    ensures g.Some? ==> g.value.points == RemapAll(rulePoints, a, b)
    ensures g.Some? ==> g.value.weights == ScaleWeights(ruleWeights, |ruleWeights|, a, b)
  {
    if numberOfPoints <= 0 {
      return None;
    }
    var points := new real[|rulePoints|](i requires 0 <= i < |rulePoints| => rulePoints[i]);
    var weights := new real[|ruleWeights|](i requires 0 <= i < |ruleWeights| => ruleWeights[i]);
    assert points[..] == rulePoints && weights[..] == ruleWeights;
    var rule := Transform(Rule(points, weights), a, b);
    if StrictlyIncreasing(rule.points[..]) {
      g := Some(GaussIntegrator(rule.points[..], rule.weights[..]));
    } else {
      g := None;
    }
  }

  /** An increasing rule stays increasing on an interval with b > a, so the
    * integrator accepts it. */
  lemma IncreasingRuleAccepted(p: seq<real>, a: real, b: real)
    requires StrictlyIncreasing(p) && b > a
    ensures StrictlyIncreasing(RemapAll(p, a, b))
  {
    var r := RemapAll(p, a, b);
    forall i, j | 0 <= i < j < |r|
      ensures r[i] < r[j]
    {
      RemapIncreasing(p[i], p[j], a, b);
    }
  }

  /** For b <= a the map does not increase, so an increasing rule of two or
    * more points becomes one the integrator refuses. */
  lemma ReversedIntervalRefused(p: seq<real>, a: real, b: real)
    requires StrictlyIncreasing(p) && |p| >= 2 && b <= a
    ensures !StrictlyIncreasing(RemapAll(p, a, b))
  {
    RemapNonIncreasing(p[0], p[1], a, b);
    assert RemapAll(p, a, b)[0] >= RemapAll(p, a, b)[1];
  }

  lemma RemapNonIncreasing(x: real, y: real, a: real, b: real)
    requires b <= a && x < y
    ensures Remap(x, a, b) >= Remap(y, a, b)
  {
    var s := (b - a) / 2.0;
    var c := a + (b - a) / 2.0;
    assert Remap(x, a, b) == x * s + c && Remap(y, a, b) == y * s + c;
    NonPositiveProduct(y - x, s);
    DiffTimes(y, x, s);
  }

  lemma NonPositiveProduct(u: real, v: real)
    requires u > 0.0 && v <= 0.0
    ensures u * v <= 0.0
  {
  }

  /** For an increasing rule of two or more points, legendre(n, a, b) succeeds
    * exactly when b > a. */
  lemma LegendreAcceptsIff(p: seq<real>, a: real, b: real)
    requires StrictlyIncreasing(p) && |p| >= 2
    ensures StrictlyIncreasing(RemapAll(p, a, b)) <==> b > a
  {
    if b > a {
      IncreasingRuleAccepted(p, a, b);
    } else {
      ReversedIntervalRefused(p, a, b);
    }
  }
}
