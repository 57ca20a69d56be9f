/**
 * Kinematic averages over a trajectory (tools/real_time_speed.py): path length, mean linear
 * velocity, turning angle at a vertex and mean angular velocity.
 *
 * The square root and the arc cosine are not computed here: callers pass them in as `sqrt`
 * and `acosDeg` (the arc cosine in degrees, already rounded to two decimals), so every
 * property below holds for whatever those functions are, and the ones that need a property of
 * them say so in their requires.
 */
module Kinematics {
  import opened Common

  /** `cal_distance`: Euclidean distance between two points. */
  function Distance(p: Point, q: Point, sqrt: real -> real): real
  {
    sqrt((q.x - p.x) * (q.x - p.x) + (q.y - p.y) * (q.y - p.y))
  }

  /** Sum of a list of reals (Python's `sum`). */
  function SumR(s: seq<real>): real
  {
    if s == [] then 0.0 else SumR(s[..|s| - 1]) + s[|s| - 1]
  }

  /** The distances between consecutive points: one term for each i in range(1, len(points)). */
  function StepDistances(ps: seq<Point>, sqrt: real -> real): (r: seq<real>)
    ensures |r| == if |ps| == 0 then 0 else |ps| - 1
    ensures forall i :: 0 <= i < |r| ==> r[i] == Distance(ps[i], ps[i + 1], sqrt)
  {
    if |ps| <= 1 then [] else seq(|ps| - 1, i requires 0 <= i < |ps| - 1 => Distance(ps[i], ps[i + 1], sqrt))
  }

  /** `total_distance`: the length of the polyline through the points. */
  function TotalDistance(ps: seq<Point>, sqrt: real -> real): real
  {
    SumR(StepDistances(ps, sqrt))
  }

  /** `linear_velocity`: total distance divided by the number of points, 0 for no points. */
  function LinearVelocity(ps: seq<Point>, sqrt: real -> real): (v: real)
    ensures |ps| == 0 ==> v == 0.0
    ensures |ps| > 0 ==> v * (|ps| as real) == TotalDistance(ps, sqrt)
  {
    if |ps| == 0 then 0.0 else TotalDistance(ps, sqrt) / (|ps| as real)
  }

  /**
   * `cal_angle`: 180 minus the interior angle at `p2`, by the law of cosines. A zero-length
   * side (ZeroDivisionError) or a cosine outside [-1, 1] (the ValueError of acos) gives 0.
   */
  function CalAngle(p1: Point, p2: Point, p3: Point, sqrt: real -> real, acosDeg: real -> real): (w: real)
    ensures Distance(p2, p1, sqrt) == 0.0 || Distance(p2, p3, sqrt) == 0.0 ==> w == 0.0
  {
    var c, a, b := Distance(p2, p1, sqrt), Distance(p2, p3, sqrt), Distance(p1, p3, sqrt);
    if 2.0 * a * c == 0.0 then 0.0
    else
      var cosB := CosineAt(a, b, c);
      if cosB < -1.0 || cosB > 1.0 then 0.0 else 180.0 - acosDeg(cosB)
  }

  /** The law of cosines: the cosine of the angle between sides `a` and `c`, opposite `b`. */
  function CosineAt(a: real, b: real, c: real): real
    requires 2.0 * a * c != 0.0
  {
    (a * a + c * c - b * b) / (2.0 * a * c)
  }

  /**
   * The three cases of `cal_angle`, with `c`, `a`, `b` the sides from `p2` to `p1`, from `p2`
   * to `p3` and from `p1` to `p3`: a zero denominator `2ac` gives 0; otherwise a cosine
   * outside [-1, 1] gives 0, and any other cosine gives 180 minus its arc cosine.
   */
  lemma CalAngleRule(p1: Point, p2: Point, p3: Point, sqrt: real -> real, acosDeg: real -> real)
    ensures var c, a, b := Distance(p2, p1, sqrt), Distance(p2, p3, sqrt), Distance(p1, p3, sqrt);
      var w := CalAngle(p1, p2, p3, sqrt, acosDeg);
      && (2.0 * a * c == 0.0 ==> w == 0.0)
      && (2.0 * a * c != 0.0 && (CosineAt(a, b, c) < -1.0 || CosineAt(a, b, c) > 1.0) ==> w == 0.0)
      && (2.0 * a * c != 0.0 && -1.0 <= CosineAt(a, b, c) <= 1.0 ==> w == 180.0 - acosDeg(CosineAt(a, b, c)))
  {
  }

  /** The turning angles of all consecutive triples: one for each i in range(2, len(points)). */
  function Angles(ps: seq<Point>, sqrt: real -> real, acosDeg: real -> real): (r: seq<real>)
    ensures |r| == if |ps| < 3 then 0 else |ps| - 2
    ensures forall i :: 0 <= i < |r| ==> r[i] == CalAngle(ps[i], ps[i + 1], ps[i + 2], sqrt, acosDeg)
  {
    if |ps| < 3 then []
    else seq(|ps| - 2, i requires 0 <= i < |ps| - 2 => CalAngle(ps[i], ps[i + 1], ps[i + 2], sqrt, acosDeg))
  }

  /** The mean of a list of reals; 0 for the empty list (the ZeroDivisionError fallback). */
  function Mean(s: seq<real>): (m: real)
    ensures |s| == 0 ==> m == 0.0
    ensures |s| > 0 ==> m * (|s| as real) == SumR(s)
  {
    if |s| == 0 then 0.0 else SumR(s) / (|s| as real)
  }

  /** `angular_velocity`: the mean turning angle, 0 when there is no triple. */
  function AngularVelocity(ps: seq<Point>, sqrt: real -> real, acosDeg: real -> real): real
  {
    Mean(Angles(ps, sqrt, acosDeg))
  }

  /** Fewer than three points: no triple, so the angular velocity is 0. */
  lemma AngularVelocityShort(ps: seq<Point>, sqrt: real -> real, acosDeg: real -> real)
    requires |ps| < 3
    ensures AngularVelocity(ps, sqrt, acosDeg) == 0.0
  {
  }

  /** A sum of terms that all lie in [lo, hi] lies in [n*lo, n*hi]. */
  lemma {:induction false} SumRBounds(s: seq<real>, lo: real, hi: real)
    requires forall i :: 0 <= i < |s| ==> lo <= s[i] <= hi
    ensures (|s| as real) * lo <= SumR(s) <= (|s| as real) * hi
  {
    if s != [] {
      SumRBounds(s[..|s| - 1], lo, hi);
      assert (|s| as real) * lo == ((|s| - 1) as real) * lo + lo;
      assert (|s| as real) * hi == ((|s| - 1) as real) * hi + hi;
    }
  }

  /** The path length is never negative when the square root is not. */
  lemma TotalDistanceNonNegative(ps: seq<Point>, sqrt: real -> real)
    requires forall x :: sqrt(x) >= 0.0
    ensures TotalDistance(ps, sqrt) >= 0.0
  {
    var ds := StepDistances(ps, sqrt);
    SumRBounds(ds, 0.0, 0.0 + MaxR(ds));
  }

  /** The largest element of a list of reals, 0 for the empty list. */
  function MaxR(s: seq<real>): (m: real)
    ensures forall i :: 0 <= i < |s| ==> s[i] <= m
  {
    if s == [] then 0.0
    else var m := MaxR(s[..|s| - 1]); if s[|s| - 1] > m then s[|s| - 1] else m
  }

  /** A quotient of a bounded non-negative sum by a positive count stays in bounds. */
  lemma MeanBound(s: real, n: real, hi: real)
    requires n > 0.0 && 0.0 <= s <= n * hi
    ensures 0.0 <= s / n <= hi
  {
  }

  /** Zero or one point: no step, so no distance and no velocity. */
  lemma LinearVelocityOfOnePoint(p: Point, sqrt: real -> real)
    ensures TotalDistance([p], sqrt) == 0.0
    ensures LinearVelocity([p], sqrt) == 0.0
  {
  }

  /** The mean of non-negative terms bounded by `hi` lies in [0, hi]. */
  lemma MeanBounds(s: seq<real>, hi: real)
    requires hi >= 0.0
    requires forall i :: 0 <= i < |s| ==> 0.0 <= s[i] <= hi
    ensures 0.0 <= Mean(s) <= hi
  {
    SumRBounds(s, 0.0, hi);
    if |s| > 0 {
      MeanBound(SumR(s), |s| as real, hi);
    }
  }

  /** One turning angle lies in [0, 180] when the arc cosine maps [-1, 1] into [0, 180]. */
  lemma CalAngleBounds(p1: Point, p2: Point, p3: Point, sqrt: real -> real, acosDeg: real -> real)
    requires forall x :: -1.0 <= x <= 1.0 ==> 0.0 <= acosDeg(x) <= 180.0
    ensures 0.0 <= CalAngle(p1, p2, p3, sqrt, acosDeg) <= 180.0
  {
  }

  /** Every turning angle of a trajectory lies in [0, 180] under the same condition. */
  lemma AnglesBounds(ps: seq<Point>, sqrt: real -> real, acosDeg: real -> real)
    requires forall x :: -1.0 <= x <= 1.0 ==> 0.0 <= acosDeg(x) <= 180.0
    ensures forall i :: 0 <= i < |Angles(ps, sqrt, acosDeg)| ==> 0.0 <= Angles(ps, sqrt, acosDeg)[i] <= 180.0
  {
    var ws := Angles(ps, sqrt, acosDeg);
    forall i | 0 <= i < |ws| ensures 0.0 <= ws[i] <= 180.0 {
      CalAngleBounds(ps[i], ps[i + 1], ps[i + 2], sqrt, acosDeg);
    }
  }

  /** The mean turning angle lies in [0, 180] when the arc cosine maps [-1, 1] into [0, 180]. */
  lemma AngularVelocityBounds(ps: seq<Point>, sqrt: real -> real, acosDeg: real -> real)
    requires forall x :: -1.0 <= x <= 1.0 ==> 0.0 <= acosDeg(x) <= 180.0
    ensures 0.0 <= AngularVelocity(ps, sqrt, acosDeg) <= 180.0
  {
    AnglesBounds(ps, sqrt, acosDeg);
    MeanBounds(Angles(ps, sqrt, acosDeg), 180.0);
  }

  /** Worked example: (0,0) to (3,4) is 5 long, spread over 2 points, so the velocity is 2.5. */
  lemma LinearVelocityExample(sqrt: real -> real)
    requires sqrt(25.0) == 5.0
    ensures LinearVelocity([Point(0.0, 0.0), Point(3.0, 4.0)], sqrt) == 2.5
  {
    var ps := [Point(0.0, 0.0), Point(3.0, 4.0)];
    assert Distance(ps[0], ps[1], sqrt) == sqrt(25.0);
    assert StepDistances(ps, sqrt) == [5.0];
    assert SumR([5.0]) == 5.0 by { assert [5.0][..0] == []; }
  }

  /** Three collinear, evenly spaced points: the interior angle is 180 degrees, so no turning. */
  lemma CollinearNoTurn(sqrt: real -> real, acosDeg: real -> real)
    requires sqrt(1.0) == 1.0 && sqrt(4.0) == 2.0 && acosDeg(-1.0) == 180.0
    ensures AngularVelocity([Point(0.0, 0.0), Point(1.0, 0.0), Point(2.0, 0.0)], sqrt, acosDeg) == 0.0
  {
    var ps := [Point(0.0, 0.0), Point(1.0, 0.0), Point(2.0, 0.0)];
    assert Distance(ps[1], ps[0], sqrt) == 1.0;
    assert Distance(ps[1], ps[2], sqrt) == 1.0;
    assert Distance(ps[0], ps[2], sqrt) == 2.0;
    assert CalAngle(ps[0], ps[1], ps[2], sqrt, acosDeg) == 0.0;
    assert Angles(ps, sqrt, acosDeg) == [0.0];
    assert SumR([0.0]) == 0.0 by { assert [0.0][..0] == []; }
  }
}
