/** The per-axis value engine: min-max normalisation, Euclidean distance and
    the clamp-then-round rule applied to every stored chart value
    (js/radar-chart/utils.js). */
module Utils {
  import opened Config

  /** JavaScript's Math.round: the nearest integer, halves rounded up. */
  function Round(x: real): (n: int)
    ensures n as real - 0.5 <= x < n as real + 0.5
  {
    (x + 0.5).Floor
  }

  /** JavaScript's Math.ceil: the least integer not below x. */
  function Ceil(x: real): (n: int)
    ensures n as real - 1.0 < x <= n as real
  {
    -((-x).Floor)
  }

  /** Math.max(lo, Math.min(hi, v)). */
  function Clamp(v: real, lo: real, hi: real): (r: real)
    ensures lo <= hi ==> lo <= r <= hi
    ensures lo <= v <= hi ==> r == v
    ensures lo <= hi && v < lo ==> r == lo
    ensures lo <= hi && hi < v ==> r == hi
  {
    if lo < (if hi < v then hi else v) then (if hi < v then hi else v) else lo
  }

  predicate IsIntegral(x: real) {
    x.Floor as real == x
  }

  /** x is a whole multiple of step. */
  predicate IsMultipleOf(x: real, step: real)
    requires step > 0.0
  {
    IsIntegral(x / step)
  }

  lemma RoundMonotone(x: real, y: real)
    requires x <= y
    ensures Round(x) <= Round(y)
  {
  }

  lemma RoundIntegral(x: real)
    requires IsIntegral(x)
    ensures Round(x) as real == x
  {
    var n, m := x.Floor, Round(x);
    assert (m - n) as real - 0.5 <= 0.0 < (m - n) as real + 0.5;
    assert m - n == 0;
  }

  /** Between two integers, rounding stays between them. */
  lemma RoundWithin(x: real, lo: int, hi: int)
    requires lo as real <= x <= hi as real
    ensures lo <= Round(x) <= hi
  {
  }

  /** normalizeValue: the position of value in [min, max] as a fraction;
      0 for an empty range instead of dividing by zero. */
  function NormalizeValue(value: real, min: real, max: real): (r: real)
    ensures max == min ==> r == 0.0
    ensures max != min ==> min + r * (max - min) == value
    ensures min < max && min <= value <= max ==> 0.0 <= r <= 1.0
  {
    if max == min then 0.0
    else
      FractionBounds(value - min, max - min);
      (value - min) / (max - min)
  }

  lemma FractionBounds(a: real, w: real)
    requires w != 0.0
    ensures (a / w) * w == a
    ensures 0.0 < w && 0.0 <= a <= w ==> 0.0 <= a / w <= 1.0
  {
  }

  lemma NormalizeStrictlyIncreasing(v1: real, v2: real, min: real, max: real)
    requires min < max && v1 < v2
    ensures NormalizeValue(v1, min, max) < NormalizeValue(v2, min, max)
  {
    var a, b := NormalizeValue(v1, min, max), NormalizeValue(v2, min, max);
    assert a * (max - min) < b * (max - min);
  }

  /** Over a non-empty range normalisation is one-to-one. */
  lemma NormalizeInjective(v1: real, v2: real, min: real, max: real)
    requires min < max
    ensures NormalizeValue(v1, min, max) == NormalizeValue(v2, min, max) <==> v1 == v2
  {
  }

  /** Real multiplication kept behind a name: the solver reasons about a
      product of two separate arguments more reliably than about x * x. */
  function Product(a: real, b: real): real {
    a * b
  }

  lemma ProductSign(a: real, b: real)
    ensures (a > 0.0 && b > 0.0) || (a < 0.0 && b < 0.0) ==> Product(a, b) > 0.0
    ensures a == 0.0 ==> Product(a, b) == 0.0
  {
  }

  function Square(x: real): (r: real)
    ensures r >= 0.0
    ensures r == 0.0 <==> x == 0.0
  {
    ProductSign(x, x);
    Product(x, x)
  }

  /** The sum of squared differences over the first |p1| coordinates: what
      euclideanDistance takes the square root of. */
  function SquaredDistance(p1: seq<real>, p2: seq<real>): (r: real)
    requires |p1| <= |p2|
    ensures r >= 0.0
  {
    if |p1| == 0 then 0.0
    else SquaredDistance(p1[..|p1| - 1], p2) + Square(p1[|p1| - 1] - p2[|p1| - 1])
  }

  /** euclideanDistance, as the squared distance: the loop sums the squared
      coordinate differences over point1.length entries. */
  method EuclideanDistanceSquared(point1: seq<real>, point2: seq<real>) returns (sum: real)
    requires |point1| <= |point2|
    ensures sum == SquaredDistance(point1, point2)
  {
    sum := 0.0;
    var i := 0;
    while i < |point1|
      invariant 0 <= i <= |point1|
      invariant sum == SquaredDistance(point1[..i], point2)
    {
      assert point1[..i + 1][..i] == point1[..i];
      sum := sum + Square(point1[i] - point2[i]);
      i := i + 1;
    }
    assert point1[..i] == point1;
  }

  lemma {:induction false} SquaredDistanceSymmetric(p1: seq<real>, p2: seq<real>)
    requires |p1| == |p2|
    ensures SquaredDistance(p1, p2) == SquaredDistance(p2, p1)
  {
    if |p1| > 0 {
      var n := |p1| - 1;
      SquaredDistancePrefix(p1[..n], p2);
      SquaredDistancePrefix(p2[..n], p1);
      SquaredDistanceSymmetric(p1[..n], p2[..n]);
      assert Square(p1[n] - p2[n]) == Square(p2[n] - p1[n]);
    }
  }

  /** Only the first |p1| entries of p2 are read. */
  lemma {:induction false} SquaredDistancePrefix(p1: seq<real>, p2: seq<real>)
    requires |p1| <= |p2|
    ensures SquaredDistance(p1, p2) == SquaredDistance(p1, p2[..|p1|])
  {
    if |p1| > 0 {
      var n := |p1| - 1;
      SquaredDistancePrefix(p1[..n], p2);
      SquaredDistancePrefix(p1[..n], p2[..|p1|]);
      assert p2[..|p1|][..n] == p2[..n];
    }
  }

  /** The distance is zero exactly when the points agree coordinate by
      coordinate; in particular a point is at distance zero from itself. */
  lemma {:induction false} SquaredDistanceZero(p1: seq<real>, p2: seq<real>)
    requires |p1| <= |p2|
    ensures SquaredDistance(p1, p2) == 0.0 <==> forall i :: 0 <= i < |p1| ==> p1[i] == p2[i]
  {
    if |p1| > 0 {
      var n := |p1| - 1;
      SquaredDistanceZero(p1[..n], p2);
      if SquaredDistance(p1, p2) == 0.0 {
        assert Square(p1[n] - p2[n]) == 0.0;
        forall i | 0 <= i < |p1| ensures p1[i] == p2[i] {
          if i < n { assert p1[..n][i] == p1[i]; }
        }
      }
    }
  }

  lemma SquaredDistanceSelf(p: seq<real>)
    ensures SquaredDistance(p, p) == 0.0
  {
    SquaredDistanceZero(p, p);
  }

  /** The rounding step of an axis: 1000 for income, debt and savings, 0.5
      for years employed, 1 for credit score and DTI. */
  function Step(axisIndex: nat): (step: real)
    ensures step > 0.0
  {
    if axisIndex == 1 || axisIndex == 2 || axisIndex == 4 then 1000.0
    else if axisIndex == 3 then 0.5
    else 1.0
  }

  /** constrainAndRound: clamp to the axis range, then round per axis. */
  function ConstrainAndRound(value: real, axisIndex: nat): (r: real)
    requires axisIndex < |Axes|
    ensures Axes[axisIndex].min <= r <= Axes[axisIndex].max
    ensures IsMultipleOf(r, Step(axisIndex))
    ensures -Step(axisIndex) / 2.0 < r - Clamp(value, Axes[axisIndex].min, Axes[axisIndex].max) <= Step(axisIndex) / 2.0
  {
    var c := Clamp(value, Axes[axisIndex].min, Axes[axisIndex].max);
    RoundToStepOnAxis(c, axisIndex);
    RoundToStep(c, axisIndex)
  }

  /** The rounding branch of constrainAndRound, applied to a clamped value. */
  function RoundToStep(c: real, axisIndex: nat): real {
    if axisIndex == 1 || axisIndex == 2 || axisIndex == 4 then Round(c / 1000.0) as real * 1000.0
    else if axisIndex == 3 then Round(c * 2.0) as real / 2.0
    else Round(c) as real
  }

  /** Rounding an in-range value stays in range, because every axis bound
      is a multiple of the axis step. */
  lemma RoundToStepOnAxis(c: real, axisIndex: nat)
    requires axisIndex < |Axes| && Axes[axisIndex].min <= c <= Axes[axisIndex].max
    ensures var r := RoundToStep(c, axisIndex);
      Axes[axisIndex].min <= r <= Axes[axisIndex].max && IsMultipleOf(r, Step(axisIndex)) &&
      -Step(axisIndex) / 2.0 < r - c <= Step(axisIndex) / 2.0
  {
    if axisIndex == 0 {
      RoundUnits(c, 300, 850);
    } else if axisIndex == 1 {
      RoundThousands(c, 25, 175);
    } else if axisIndex == 2 {
      RoundThousands(c, 0, 100);
    } else if axisIndex == 3 {
      RoundHalves(c, 0, 40);
    } else if axisIndex == 4 {
      RoundThousands(c, 0, 150);
    } else {
      RoundUnits(c, 0, 100);
    }
  }

  /** Rounding to the nearest thousand between two multiples of a thousand. */
  lemma RoundThousands(c: real, lo: int, hi: int)
    requires lo as real * 1000.0 <= c <= hi as real * 1000.0
    ensures var r := Round(c / 1000.0) as real * 1000.0;
      lo as real * 1000.0 <= r <= hi as real * 1000.0 && IsMultipleOf(r, 1000.0) && -500.0 < r - c <= 500.0
  {
    var n := Round(c / 1000.0);
    RoundWithin(c / 1000.0, lo, hi);
    assert (n as real * 1000.0) / 1000.0 == n as real;
  }

  /** Rounding to the nearest half between two multiples of a half. */
  lemma RoundHalves(c: real, lo: int, hi: int)
    requires lo as real / 2.0 <= c <= hi as real / 2.0
    ensures var r := Round(c * 2.0) as real / 2.0;
      lo as real / 2.0 <= r <= hi as real / 2.0 && IsMultipleOf(r, 0.5) && -0.25 < r - c <= 0.25
  {
    var n := Round(c * 2.0);
    RoundWithin(c * 2.0, lo, hi);
    assert (n as real / 2.0) / 0.5 == n as real;
  }

  /** Rounding to the nearest integer between two integers. */
  lemma RoundUnits(c: real, lo: int, hi: int)
    requires lo as real <= c <= hi as real
    ensures var r := Round(c) as real;
      lo as real <= r <= hi as real && IsMultipleOf(r, 1.0) && -0.5 < r - c <= 0.5
  {
    RoundWithin(c, lo, hi);
    assert Round(c) as real / 1.0 == Round(c) as real;
  }

  /** The fixed points of constrainAndRound are exactly the in-range
      multiples of the axis step. */
  lemma ConstrainAndRoundFixedPoint(v: real, axisIndex: nat)
    requires axisIndex < |Axes|
    ensures ConstrainAndRound(v, axisIndex) == v <==>
      Axes[axisIndex].min <= v <= Axes[axisIndex].max && IsMultipleOf(v, Step(axisIndex))
  {
    if Axes[axisIndex].min <= v <= Axes[axisIndex].max && IsMultipleOf(v, Step(axisIndex)) {
      if axisIndex == 1 || axisIndex == 2 || axisIndex == 4 {
        RoundIntegral(v / 1000.0);
      } else if axisIndex == 3 {
        RoundIntegral(v * 2.0);
      } else {
        RoundIntegral(v);
      }
    }
  }

  lemma ConstrainAndRoundIdempotent(v: real, axisIndex: nat)
    requires axisIndex < |Axes|
    ensures ConstrainAndRound(ConstrainAndRound(v, axisIndex), axisIndex) == ConstrainAndRound(v, axisIndex)
  {
    ConstrainAndRoundFixedPoint(ConstrainAndRound(v, axisIndex), axisIndex);
  }

  lemma ConstrainAndRoundMonotone(v1: real, v2: real, axisIndex: nat)
    requires axisIndex < |Axes| && v1 <= v2
    ensures ConstrainAndRound(v1, axisIndex) <= ConstrainAndRound(v2, axisIndex)
  {
    var axis := Axes[axisIndex];
    var c1, c2 := Clamp(v1, axis.min, axis.max), Clamp(v2, axis.min, axis.max);
    assert c1 <= c2;
    if axisIndex == 1 || axisIndex == 2 || axisIndex == 4 {
      RoundMonotone(c1 / 1000.0, c2 / 1000.0);
    } else if axisIndex == 3 {
      RoundMonotone(c1 * 2.0, c2 * 2.0);
    } else {
      RoundMonotone(c1, c2);
    }
  }

  /** Half-up rounding and clamping on the income axis. */
  lemma IncomeRoundingExamples()
    ensures ConstrainAndRound(76499.0, 1) == 76000.0
    ensures ConstrainAndRound(76500.0, 1) == 77000.0
    ensures ConstrainAndRound(1000000.0, 1) == 175000.0
  {
    assert Round(76.499) == 76;
    assert Round(76.5) == 77;
    assert Round(175.0) == 175;
  }
}
