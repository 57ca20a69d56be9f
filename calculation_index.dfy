/**
 * The index calculations of tools/calculation_index.py that work on the box list and the
 * detection sequence of a large-organism record: mean area, the per-frame distance lists,
 * the speed list, the two aliveness tests, the stretch state of consecutive boxes, the state
 * list and the stretch speed `v2`.
 *
 * The square root is passed in as `sqrt`; Python's `round(x, 2)` is left out (the values are
 * kept exact).
 */
module CalculationIndex {
  import opened Common
  import Kinematics

  function Min(a: int, b: int): int
  {
    if a <= b then a else b
  }

  /** `abs`. */
  function Abs(a: int): nat
  {
    if a < 0 then -a else a
  }

  /** The last element of a non-empty list (`list[-1]`). */
  function Last<T>(s: seq<T>): T
    requires |s| > 0
  {
    s[|s| - 1]
  }

  /** `(x2 - x1) * (y2 - y1)`. */
  function BoxArea(b: Box): int
  {
    (b.x2 - b.x1) * (b.y2 - b.y1)
  }

  function SumAreas(bs: seq<Box>): int
  {
    if bs == [] then 0 else SumAreas(bs[..|bs| - 1]) + BoxArea(bs[|bs| - 1])
  }

  /** `cal_average_area`: the mean box area, 0 for no boxes. */
  function AverageArea(bs: seq<Box>): (a: real)
    ensures |bs| == 0 ==> a == 0.0
    ensures |bs| > 0 ==> a * (|bs| as real) == SumAreas(bs) as real
  {
    if |bs| == 0 then 0.0 else SumAreas(bs) as real / (|bs| as real)
  }

  /** Boxes all of area `c` sum to `|bs| * c`. */
  lemma {:induction false} SumAreasUniform(bs: seq<Box>, c: int)
    requires forall i :: 0 <= i < |bs| ==> BoxArea(bs[i]) == c
    ensures SumAreas(bs) == |bs| * c
  {
    if bs != [] {
      SumAreasUniform(bs[..|bs| - 1], c);
      assert (|bs| - 1) * c + c == |bs| * c;
    }
  }

  /** Boxes all of area `c` have mean area `c`. */
  lemma AverageAreaUniform(bs: seq<Box>, c: int)
    requires |bs| > 0 && forall i :: 0 <= i < |bs| ==> BoxArea(bs[i]) == c
    ensures AverageArea(bs) == c as real
  {
    SumAreasUniform(bs, c);
    assert (|bs| * c) as real == (|bs| as real) * (c as real);
  }

  /** `distance if distance >= 2 else 0`. */
  function Filtered(d: real): (r: real)
    ensures r == 0.0 || r >= 2.0
    ensures d < 2.0 ==> r == 0.0
    ensures d >= 2.0 ==> r == d
  {
    if d >= 2.0 then d else 0.0
  }

  /**
   * The squared distance `cal_distance` takes the root of: the centre of the current box
   * against the centre predicted by putting the previous box's centre offset on the current
   * box's bottom-left corner.
   */
  function CentreGap(per: Box, loc: Box): real
  {
    var oriX, oriY := (per.x1 + per.x2) as real / 2.0, (per.y1 + per.y2) as real / 2.0;
    var offX, offY := oriX - per.x1 as real, oriY - per.y2 as real;
    var predX, predY := loc.x1 as real + offX, loc.y2 as real + offY;
    var cX, cY := (loc.x1 + loc.x2) as real / 2.0, (loc.y1 + loc.y2) as real / 2.0;
    (predX - cX) * (predX - cX) + (predY - cY) * (predY - cY)
  }

  /** `cal_distance(per_location, location)`: distances below 2 count as 0. */
  function CalDistance(per: Box, loc: Box, sqrt: real -> real): (d: real)
    ensures d == 0.0 || d >= 2.0
    ensures sqrt(CentreGap(per, loc)) < 2.0 ==> d == 0.0
    ensures sqrt(CentreGap(per, loc)) >= 2.0 ==> d == sqrt(CentreGap(per, loc))
  {
    Filtered(sqrt(CentreGap(per, loc)))
  }

  /** Half the change of width and height between two boxes, squared and summed. */
  function SizeGap(per: Box, loc: Box): real
  {
    var dw := ((per.x2 - per.x1) - (loc.x2 - loc.x1)) as real / 2.0;
    var dh := ((loc.y2 - loc.y1) - (per.y2 - per.y1)) as real / 2.0;
    dw * dw + dh * dh
  }

  /**
   * The predicted and the actual centre differ by half the change of the box size, so the
   * value depends on the sizes alone: where the boxes are plays no part.
   */
  lemma CalDistanceSizeOnly(per: Box, loc: Box, sqrt: real -> real)
    ensures CalDistance(per, loc, sqrt) == Filtered(sqrt(SizeGap(per, loc)))
  {
    var oriX, oriY := (per.x1 + per.x2) as real / 2.0, (per.y1 + per.y2) as real / 2.0;
    var predX, predY := loc.x1 as real + (oriX - per.x1 as real), loc.y2 as real + (oriY - per.y2 as real);
    var cX, cY := (loc.x1 + loc.x2) as real / 2.0, (loc.y1 + loc.y2) as real / 2.0;
    var dw := ((per.x2 - per.x1) - (loc.x2 - loc.x1)) as real / 2.0;
    var dh := ((loc.y2 - loc.y1) - (per.y2 - per.y1)) as real / 2.0;
    assert predX - cX == dw;
    assert predY - cY == dh;
    assert CentreGap(per, loc) == (predX - cX) * (predX - cX) + (predY - cY) * (predY - cY);
    assert CentreGap(per, loc) == dw * dw + dh * dh;
    assert SizeGap(per, loc) == dw * dw + dh * dh;
  }

  /** A box that moved without changing size gives distance 0 (when `sqrt(0)` is below 2). */
  lemma MovedBoxNoDistance(b: Box, dx: int, dy: int, sqrt: real -> real)
    requires sqrt(0.0) < 2.0
    ensures CalDistance(b, Box(b.x1 + dx, b.y1 + dy, b.x2 + dx, b.y2 + dy), sqrt) == 0.0
  {
    CalDistanceSizeOnly(b, Box(b.x1 + dx, b.y1 + dy, b.x2 + dx, b.y2 + dy), sqrt);
  }

  /** The sum of a slice, as a Python `sum` of a list slice. */
  function SumR(s: seq<real>): real
  {
    Kinematics.SumR(s)
  }

  /**
   * `cal_speed_list(distance_list)`: one speed per distance. For the first five the sum of
   * the distances BEFORE the current one over `index + 1`; after that the mean of the last
   * five distances, the current one included.
   */
  function SpeedList(d: seq<real>): (r: seq<real>)
    ensures |r| == |d|
    ensures forall i :: 0 <= i < |r| && i < 5 ==> r[i] * ((i + 1) as real) == SumR(d[..i])
    ensures forall i :: 5 <= i < |r| ==> r[i] * 5.0 == SumR(d[i - 4..i + 1])
  {
    seq(|d|, i requires 0 <= i < |d| => if i < 5 then SumR(d[..i]) / ((i + 1) as real) else SumR(d[i - 4..i + 1]) / 5.0)
  }

  /** The first speed is always 0: its slice `distance_list[:0]` is empty. */
  lemma FirstSpeedZero(d: seq<real>)
    requires |d| > 0
    ensures SpeedList(d)[0] == 0.0
  {
    assert d[..0] == [];
  }

  /** Every value is 0 or at least 2, as `cal_distance` and the repeats of such values are. */
  predicate Gapped(s: seq<real>)
  {
    forall i :: 0 <= i < |s| ==> s[i] == 0.0 || s[i] >= 2.0
  }

  /** The loop state of `cal_distance_list`: the list so far and the previous detected box. */
  datatype DistState = DistState(list: seq<real>, per: Option<Box>)

  /**
   * One frame of `cal_distance_list`. A detection while the list is empty only records the
   * box; a later one appends the distance from the previous box, which raises (TypeError,
   * here None) when no box was ever recorded. A miss repeats the last value, or appends 0.
   */
  function DistStep(st: DistState, b: Box, detected: bool, sqrt: real -> real): (r: Option<DistState>)
    ensures r.Some? && detected ==> r.value.per == Some(b)
    ensures r.Some? && !detected ==> r.value.per == st.per
    ensures r.Some? && Gapped(st.list) ==> Gapped(r.value.list)
  {
    if detected then
      if |st.list| == 0 then Some(DistState(st.list, Some(b)))
      else if st.per.None? then None
      else Some(DistState(st.list + [CalDistance(st.per.value, b, sqrt)], Some(b)))
    else Some(DistState(st.list + [if |st.list| == 0 then 0.0 else Last(st.list)], st.per))
  }

  /** `cal_distance_list` over the first `n` frames of `zip(bbox_list, detection_sequence)`. */
  function DistRun(boxes: seq<Box>, ds: seq<int>, n: nat, sqrt: real -> real): (r: Option<DistState>)
    requires n <= |boxes| && n <= |ds|
    ensures r.Some? ==> Gapped(r.value.list) && |r.value.list| <= n
  {
    if n == 0 then Some(DistState([], None))
    else
      match DistRun(boxes, ds, n - 1, sqrt)
      case None => None
      case Some(st) => DistStep(st, boxes[n - 1], ds[n - 1] != 0, sqrt)
  }

  /** `cal_distance_list(bbox_list, detection_sequence)`; None when it raises. */
  function DistanceList(boxes: seq<Box>, ds: seq<int>, sqrt: real -> real): (r: Option<seq<real>>)
  {
    match DistRun(boxes, ds, Min(|boxes|, |ds|), sqrt)
    case None => None
    case Some(st) => Some(st.list)
  }

  /** A record whose first frame is a detection never makes `cal_distance_list` raise. */
  lemma {:induction false} DistRunDefined(boxes: seq<Box>, ds: seq<int>, n: nat, sqrt: real -> real)
    requires 1 <= n <= |boxes| && n <= |ds| && ds[0] != 0
    ensures DistRun(boxes, ds, n, sqrt).Some? && DistRun(boxes, ds, n, sqrt).value.per.Some?
  {
    if n > 1 {
      DistRunDefined(boxes, ds, n - 1, sqrt);
    }
  }

  /** With every frame detected the list stays empty: only the box is recorded. */
  lemma {:induction false} AllDetectedNoDistances(boxes: seq<Box>, ds: seq<int>, n: nat, sqrt: real -> real)
    requires n <= |boxes| && n <= |ds| && forall i :: 0 <= i < n ==> ds[i] != 0
    ensures DistRun(boxes, ds, n, sqrt).Some? && DistRun(boxes, ds, n, sqrt).value.list == []
  {
    if n > 0 {
      AllDetectedNoDistances(boxes, ds, n - 1, sqrt);
    }
  }

  /** `cal_distance_list` as the loop it is; `r` is None when the source raises. */
  method CalDistanceList(boxes: seq<Box>, ds: seq<int>, sqrt: real -> real) returns (r: Option<seq<real>>)
    ensures r == DistanceList(boxes, ds, sqrt)
    ensures r.Some? ==> Gapped(r.value) && |r.value| <= Min(|boxes|, |ds|)
  {
    var list: seq<real> := [];
    var per: Option<Box> := None;
    var n := Min(|boxes|, |ds|);
    var i := 0;
    while i < n
      invariant 0 <= i <= n
      invariant DistRun(boxes, ds, i, sqrt) == Some(DistState(list, per))
    {
      if ds[i] != 0 {
        if |list| == 0 {
          per := Some(boxes[i]);
        } else if per.None? {
          assert DistRun(boxes, ds, i + 1, sqrt) == None;
          assert DistRun(boxes, ds, n, sqrt) == None by {
            DistRunStaysNone(boxes, ds, i + 1, n, sqrt);
          }
          return None;
        } else {
          list := list + [CalDistance(per.value, boxes[i], sqrt)];
          per := Some(boxes[i]);
        }
      } else {
        list := list + [if |list| == 0 then 0.0 else list[|list| - 1]];
      }
      i := i + 1;
    }
    r := Some(list);
  }

  /** Once `cal_distance_list` has raised, it stays raised. */
  lemma {:induction false} DistRunStaysNone(boxes: seq<Box>, ds: seq<int>, m: nat, n: nat, sqrt: real -> real)
    requires m <= n <= |boxes| && n <= |ds| && DistRun(boxes, ds, m, sqrt).None?
    ensures DistRun(boxes, ds, n, sqrt).None?
    decreases n - m
  {
    if m < n {
      DistRunStaysNone(boxes, ds, m + 1, n, sqrt);
    }
  }

  /** The loop state of `cal_distance_list1`: the list, the previous box, and the run of detections. */
  datatype Dist1State = Dist1State(list: seq<real>, per: Option<Box>, consecutive: int)

  /** A run of detections has recorded a box. */
  predicate Recorded(st: Dist1State)
  {
    st.consecutive > 0 ==> st.per.Some?
  }

  /**
   * One frame of `cal_distance_list1`. The first two detections of a run record the box
   * (appending 0 unless the list is still empty); from the third on the distance from the
   * previous box is appended. A miss ends the run and repeats the last value, or appends 0.
   */
  function Dist1Step(st: Dist1State, b: Box, detected: bool, sqrt: real -> real): (r: Dist1State)
    requires Recorded(st)
    ensures Recorded(r)
    ensures Gapped(st.list) ==> Gapped(r.list)
    ensures 0 <= st.consecutive <= 2 ==> 0 <= r.consecutive <= 2
  {
    if detected then
      if st.consecutive < 2 then
        if |st.list| == 0 then Dist1State(st.list, Some(b), st.consecutive + 1)
        else Dist1State(st.list + [0.0], Some(b), st.consecutive + 1)
      else Dist1State(st.list + [CalDistance(st.per.value, b, sqrt)], Some(b), st.consecutive)
    else Dist1State(st.list + [if |st.list| == 0 then 0.0 else Last(st.list)], st.per, 0)
  }

  /** `cal_distance_list1` over the first `n` frames. */
  function Dist1Run(boxes: seq<Box>, ds: seq<int>, n: nat, sqrt: real -> real): (r: Dist1State)
    requires n <= |boxes| && n <= |ds|
    ensures Recorded(r) && Gapped(r.list) && 0 <= r.consecutive <= 2
  {
    if n == 0 then Dist1State([], None, 0) else Dist1Step(Dist1Run(boxes, ds, n - 1, sqrt), boxes[n - 1], ds[n - 1] != 0, sqrt)
  }

  /** `cal_distance_list1(bbox_list, detection_sequence)`. */
  function DistanceList1(boxes: seq<Box>, ds: seq<int>, sqrt: real -> real): (r: seq<real>)
    ensures Gapped(r)
  {
    Dist1Run(boxes, ds, Min(|boxes|, |ds|), sqrt).list
  }

  /**
   * With every frame detected, the first two frames give nothing and every later frame one
   * distance.
   */
  lemma {:induction false} AllDetectedDistances1(boxes: seq<Box>, ds: seq<int>, n: nat, sqrt: real -> real)
    requires n <= |boxes| && n <= |ds| && forall i :: 0 <= i < n ==> ds[i] != 0
    ensures |Dist1Run(boxes, ds, n, sqrt).list| == if n < 2 then 0 else n - 2
    ensures Dist1Run(boxes, ds, n, sqrt).consecutive == if n < 2 then n else 2
  {
    if n > 0 {
      AllDetectedDistances1(boxes, ds, n - 1, sqrt);
    }
  }

  /** Each frame adds at most one value. */
  lemma {:induction false} Distances1Bound(boxes: seq<Box>, ds: seq<int>, n: nat, sqrt: real -> real)
    requires n <= |boxes| && n <= |ds|
    ensures |Dist1Run(boxes, ds, n, sqrt).list| <= n
  {
    if n > 0 {
      Distances1Bound(boxes, ds, n - 1, sqrt);
    }
  }

  /** `cal_distance_list1` as the loop it is. */
  method CalDistanceList1(boxes: seq<Box>, ds: seq<int>, sqrt: real -> real) returns (list: seq<real>)
    ensures list == DistanceList1(boxes, ds, sqrt)
  {
    list := [];
    var per: Option<Box> := None;
    var consecutive := 0;
    var n := Min(|boxes|, |ds|);
    var i := 0;
    while i < n
      invariant 0 <= i <= n
      invariant Dist1Run(boxes, ds, i, sqrt) == Dist1State(list, per, consecutive)
    {
      if ds[i] != 0 {
        if consecutive < 2 {
          consecutive := consecutive + 1;
          if |list| == 0 {
            per := Some(boxes[i]);
          } else {
            list := list + [0.0];
            per := Some(boxes[i]);
          }
        } else {
          var distance := CalDistance(per.value, boxes[i], sqrt);
          list := list + [distance];
          per := Some(boxes[i]);
        }
      } else {
        consecutive := 0;
        if |list| == 0 {
          list := list + [0.0];
        } else {
          list := list + [list[|list| - 1]];
        }
      }
      i := i + 1;
    }
  }

  /** The number of values above `t`. */
  function CountAbove(s: seq<real>, t: real): (c: nat)
    ensures c <= |s|
  {
    if s == [] then 0 else CountAbove(s[..|s| - 1], t) + (if s[|s| - 1] > t then 1 else 0)
  }

  lemma {:induction false} CountAboveMono(s: seq<real>, t: real, k: nat)
    requires k <= |s|
    ensures CountAbove(s[..k], t) <= CountAbove(s, t)
    decreases |s| - k
  {
    if k < |s| {
      CountAboveMono(s, t, k + 1);
      assert s[..k + 1][..k] == s[..k];
    } else {
      assert s[..k] == s;
    }
  }

  /** `DISTANCE_THRESHOLD1`. */
  const DISTANCE_THRESHOLD: real := 2.0

  /**
   * `dead_alive(first_frame, bbox_list, detection_sequence)`: 'live' as soon as more than 3
   * entries of `cal_distance_list1` exceed 2, otherwise 'die'.
   */
  method DeadAlive(boxes: seq<Box>, ds: seq<int>, sqrt: real -> real) returns (alive: Vitality)
    ensures alive == Live <==> CountAbove(DistanceList1(boxes, ds, sqrt), DISTANCE_THRESHOLD) > 3
  {
    var count := 0;
    alive := Die;
    var list := CalDistanceList1(boxes, ds, sqrt);
    var i := 0;
    while i < |list|
      invariant 0 <= i <= |list| && count == CountAbove(list[..i], DISTANCE_THRESHOLD) && count <= 3
    {
      assert list[..i + 1][..i] == list[..i];
      if list[i] > DISTANCE_THRESHOLD {
        count := count + 1;
      }
      if count > 3 {
        CountAboveMono(list, DISTANCE_THRESHOLD, i + 1);
        return Live;
      }
      i := i + 1;
    }
    assert list[..i] == list;
  }

  /** Python's `max` of a non-empty list. */
  function MaxOf(s: seq<real>): (m: real)
    requires |s| > 0
    ensures forall i :: 0 <= i < |s| ==> s[i] <= m
    ensures exists i :: 0 <= i < |s| && s[i] == m
  {
    if |s| == 1 then s[0]
    else var m := MaxOf(s[..|s| - 1]); if s[|s| - 1] > m then s[|s| - 1] else m
  }

  /** `SPEED_THRESHOLD1` and `DISTANCE_THRESHOLD1`. */
  const SPEED_THRESHOLD: real := 1.0

  /**
   * `dead_alive1`: 'live' iff the top speed reaches 1 or the total distance reaches 2. An
   * empty distance list makes `max` raise, which is caught: 'die'. None when
   * `cal_distance_list`, called outside the `try`, raises.
   */
  function DeadAlive1(boxes: seq<Box>, ds: seq<int>, sqrt: real -> real): (r: Option<Vitality>)
    ensures r.None? <==> DistanceList(boxes, ds, sqrt).None?
    ensures DistanceList(boxes, ds, sqrt) == Some([]) ==> r == Some(Die)
  {
    match DistanceList(boxes, ds, sqrt)
    case None => None
    case Some(list) =>
      if |list| == 0 then Some(Die)
      else if MaxOf(SpeedList(list)) >= SPEED_THRESHOLD || SumR(list) >= DISTANCE_THRESHOLD then Some(Live)
      else Some(Die)
  }

  /** A record detected in every frame is judged dead by `dead_alive1`: its distance list is empty. */
  lemma DeadAlive1AllDetected(boxes: seq<Box>, ds: seq<int>, sqrt: real -> real)
    requires forall i :: 0 <= i < |ds| ==> ds[i] != 0
    ensures DeadAlive1(boxes, ds, sqrt) == Some(Die)
  {
    AllDetectedNoDistances(boxes, ds, Min(|boxes|, |ds|), sqrt);
  }

  /** The stretch state `area_iou` gives. */
  datatype Shape = Contraction | Extend | Static

  /** `'contraction'` below 0, `'extend'` above the threshold, `'static'` between. */
  function Classify(loss: real, threshold: real): (s: Shape)
    ensures s == Contraction <==> loss < 0.0
    ensures s == Extend <==> 0.0 <= loss && loss > threshold
  {
    if loss < 0.0 then Contraction else if loss > threshold then Extend else Static
  }

  function MinInt(a: int, b: int): int
  {
    if a <= b then a else b
  }

  /**
   * `area_iou(per_location, location)`: compares the widths and heights of two boxes. The
   * four guards cover every case, so the `x22 == x12 and y22 == y12` branch and the final
   * `raise` are never reached.
   */
  function AreaIou(per: Box, loc: Box): (s: Shape)
    ensures per.x2 - per.x1 == loc.x2 - loc.x1 && per.y2 - per.y1 == loc.y2 - loc.y1 ==> s == Static
  {
    var w1, h1 := per.x2 - per.x1, per.y2 - per.y1;
    var w2, h2 := loc.x2 - loc.x1, loc.y2 - loc.y1;
    var areaOld, areaNew := w1 * h1, w2 * h2;
    var overlap := MinInt(w1, w2) * MinInt(h1, h2);
    if w2 < w1 && h2 < h1 then Classify((areaOld - areaNew) as real, 0.0)
    else if w2 > w1 && h2 > h1 then Classify((areaNew - areaOld) as real, 0.0)
    else if w2 >= w1 && h2 <= h1 then
      var topLoss, rightLoss := (areaOld - overlap) as real, (areaNew - overlap) as real;
      Classify(rightLoss - topLoss / 2.0, topLoss / 2.0)
    else if w2 <= w1 && h2 >= h1 then
      var topLoss, rightLoss := (areaNew - overlap) as real, (areaOld - overlap) as real;
      Classify(topLoss - rightLoss / 2.0, rightLoss / 2.0)
    else if w2 == w1 && h2 == h1 then Classify((areaNew - areaOld) as real, 0.0)
    else assert false; Static
  }

  lemma MulLess(a: int, b: int, c: int, d: int)
    requires 0 <= a < c && 0 <= b < d
    ensures a * b < c * d
  {
    assert a * b <= c * b;
    assert c * b < c * d;
  }

  /**
   * A box that shrinks in both directions reads as 'extend', as does one that grows in both:
   * the first two branches take the area change without its sign.
   */
  lemma ShrinkOrGrowReadsAsExtend(per: Box, loc: Box)
    requires 0 <= loc.x2 - loc.x1 < per.x2 - per.x1 && 0 <= loc.y2 - loc.y1 < per.y2 - per.y1
    ensures AreaIou(per, loc) == Extend && AreaIou(loc, per) == Extend
  {
    MulLess(loc.x2 - loc.x1, loc.y2 - loc.y1, per.x2 - per.x1, per.y2 - per.y1);
  }

  /** No state appended is 'static'. */
  predicate Moving(s: seq<Shape>)
  {
    forall i :: 0 <= i < |s| ==> s[i] != Static
  }

  /** The loop state of `cal_state_list`: the states so far and the previous detected box. */
  datatype StateScan = StateScan(list: seq<Shape>, per: Option<Box>)

  /** Once a state was appended a box has been recorded. */
  predicate Anchored(st: StateScan)
  {
    |st.list| > 0 ==> st.per.Some?
  }

  /**
   * One frame of `cal_state_list`. The first detection records the box; a later one
   * appends the state against the previous box, except that 'static' repeats the last
   * state (or appends nothing). A miss repeats the last state, if any.
   */
  function StateStep(st: StateScan, b: Box, detected: bool): (r: StateScan)
    requires Anchored(st)
    ensures Anchored(r) && (Moving(st.list) ==> Moving(r.list))
    ensures |st.list| <= |r.list| <= |st.list| + 1
  {
    if detected then
      if |st.list| == 0 && st.per.None? then StateScan(st.list, Some(b))
      else
        var s := AreaIou(st.per.value, b);
        if s == Static then StateScan(if |st.list| > 0 then st.list + [Last(st.list)] else st.list, Some(b))
        else StateScan(st.list + [s], Some(b))
    else StateScan(if |st.list| > 0 then st.list + [Last(st.list)] else st.list, st.per)
  }

  /** `cal_state_list` over the first `n` frames. */
  function StateRun(boxes: seq<Box>, ds: seq<int>, n: nat): (r: StateScan)
    requires n <= |boxes| && n <= |ds|
    ensures Anchored(r) && Moving(r.list)
  {
    if n == 0 then StateScan([], None) else StateStep(StateRun(boxes, ds, n - 1), boxes[n - 1], ds[n - 1] != 0)
  }

  /** `cal_state_list(bbox_list, detection_sequence)`: never a 'static' entry. */
  function StateList(boxes: seq<Box>, ds: seq<int>): (r: seq<Shape>)
    ensures Moving(r)
  {
    StateRun(boxes, ds, Min(|boxes|, |ds|)).list
  }

  /** Nothing is appended before, nor at, the first detection: one state fewer than frames at most. */
  lemma {:induction false} StatesFewerThanFrames(boxes: seq<Box>, ds: seq<int>, n: nat)
    requires 0 < n <= |boxes| && n <= |ds|
    ensures |StateRun(boxes, ds, n).list| < n
    ensures StateRun(boxes, ds, n).per.None? ==> StateRun(boxes, ds, n).list == []
  {
    if n > 1 {
      StatesFewerThanFrames(boxes, ds, n - 1);
    }
  }

  /** `cal_state_list` as the loop it is. */
  method CalStateList(boxes: seq<Box>, ds: seq<int>) returns (states: seq<Shape>)
    ensures states == StateList(boxes, ds)
  {
    states := [];
    var per: Option<Box> := None;
    var n := Min(|boxes|, |ds|);
    var i := 0;
    while i < n
      invariant 0 <= i <= n
      invariant StateRun(boxes, ds, i) == StateScan(states, per)
    {
      if ds[i] != 0 {
        if |states| == 0 && per.None? {
          per := Some(boxes[i]);
        } else {
          var state := AreaIou(per.value, boxes[i]);
          if state == Static {
            if |states| > 0 {
              states := states + [states[|states| - 1]];
            }
          } else {
            states := states + [state];
          }
          per := Some(boxes[i]);
        }
      } else {
        if |states| > 0 {
          states := states + [states[|states| - 1]];
        }
      }
      i := i + 1;
    }
  }

  /** `abs(x2 - x1) * abs(y2 - y1)`. */
  function AbsArea(b: Box): nat
  {
    Abs(b.x2 - b.x1) * Abs(b.y2 - b.y1)
  }

  /** The total variation `sum(abs(a[k] - a[k - 1]) for k in range(1, len(a)))`. */
  function Variation(a: seq<int>): (v: nat)
  {
    if |a| <= 1 then 0 else Variation(a[..|a| - 1]) + Abs(a[|a| - 1] - a[|a| - 2])
  }

  /** The number of indices `1 <= k < n` where the state differs from the one before. */
  function Changes(states: seq<Shape>, n: nat): nat
    requires n <= |states|
  {
    if n <= 1 then 0 else Changes(states, n - 1) + (if states[n - 1] != states[n - 2] then 1 else 0)
  }

  /** The loop state of `v2_area`. */
  datatype V2Scan = V2Scan(flag: bool, frames: int, v2: seq<real>, areas: seq<int>)

  /** Every value is non-negative. */
  predicate NonNegative(s: seq<real>)
  {
    forall i :: 0 <= i < |s| ==> s[i] >= 0.0
  }

  /**
   * One index of `v2_area`: count the frame and record the area; at every state change
   * either arm the flag or, when it is armed, close the segment: append its area variation
   * per frame and start afresh.
   */
  function V2Step(st: V2Scan, index: nat, states: seq<Shape>, b: Box): (r: V2Scan)
    requires index < |states| && st.frames >= 0
    ensures r.frames >= 0
    ensures NonNegative(st.v2) ==> NonNegative(r.v2)
    ensures |r.v2| <= |st.v2| + 1
  {
    var frames, areas := st.frames + 1, st.areas + [AbsArea(b)];
    if index == 0 then V2Scan(st.flag, frames, st.v2, areas)
    else if states[index] != states[index - 1] then
      if st.flag then V2Scan(false, 0, st.v2 + [Variation(areas) as real / frames as real], [])
      else V2Scan(true, frames, st.v2, areas)
    else V2Scan(st.flag, frames, st.v2, areas)
  }

  /** `v2_area` over the first `n` indices. */
  function V2Run(states: seq<Shape>, boxes: seq<Box>, n: nat): (r: V2Scan)
    requires n <= |states| && n <= |boxes|
    ensures r.frames >= 0 && NonNegative(r.v2)
  {
    if n == 0 then V2Scan(false, 0, [], []) else V2Step(V2Run(states, boxes, n - 1), n - 1, states, boxes[n - 1])
  }

  /** `v2_area(state_list, bbox_list)`: one rate per two state changes. */
  function V2Area(states: seq<Shape>, boxes: seq<Box>): (r: seq<real>)
    ensures NonNegative(r)
  {
    V2Run(states, boxes, Min(|states|, |boxes|)).v2
  }

  /** Every closed segment took two state changes: the armed flag counts the one in between. */
  lemma {:induction false} V2CountsChanges(states: seq<Shape>, boxes: seq<Box>, n: nat)
    requires n <= |states| && n <= |boxes|
    ensures 2 * |V2Run(states, boxes, n).v2| + (if V2Run(states, boxes, n).flag then 1 else 0) == Changes(states, n)
  {
    if n > 0 {
      V2CountsChanges(states, boxes, n - 1);
    }
  }

  /** The inner loop of `v2_area`: the summed absolute differences of consecutive areas. */
  method VariationLoop(areas: seq<int>) returns (total: int)
    ensures total == Variation(areas)
  {
    total := 0;
    if |areas| == 0 {
      return;
    }
    var k := 1;
    while k < |areas|
      invariant 1 <= k <= |areas|
      invariant total == Variation(areas[..k])
    {
      assert areas[..k + 1][..k] == areas[..k];
      total := total + Abs(areas[k] - areas[k - 1]);
      k := k + 1;
    }
    assert areas[..k] == areas;
  }

  /** `v2_area` as the loop it is, the area variation summed by its inner loop. */
  method V2AreaLoop(states: seq<Shape>, boxes: seq<Box>) returns (v2: seq<real>)
    ensures v2 == V2Area(states, boxes)
  {
    var flag := false;
    var frames := 0;
    v2 := [];
    var areas: seq<int> := [];
    var n := Min(|states|, |boxes|);
    var index := 0;
    while index < n
      invariant 0 <= index <= n
      invariant V2Run(states, boxes, index) == V2Scan(flag, frames, v2, areas)
    {
      frames := frames + 1;
      var b := boxes[index];
      areas := areas + [AbsArea(b)];
      if index > 0 && states[index] != states[index - 1] {
        if flag {
          var total := VariationLoop(areas);
          v2 := v2 + [total as real / frames as real];
          areas := [];
          frames := 0;
          flag := false;
        } else {
          flag := true;
        }
      }
      index := index + 1;
    }
  }

  /** The mean of the rates over two; 0 when there are none (the caught ZeroDivisionError). */
  function V2Of(v2List: seq<real>): (v: real)
    ensures v2List == [] ==> v == 0.0
    ensures v2List != [] ==> v * 2.0 * (|v2List| as real) == SumR(v2List)
  {
    if |v2List| == 0 then 0.0 else SumR(v2List) / (|v2List| as real) / 2.0
  }

  /** The rates are non-negative, so is their sum. */
  lemma {:induction false} SumNonNegative(s: seq<real>)
    requires NonNegative(s)
    ensures SumR(s) >= 0.0
  {
    if s != [] {
      SumNonNegative(s[..|s| - 1]);
    }
  }

  /** Non-negative rates give a non-negative `v2`. */
  lemma V2OfNonNegative(v2List: seq<real>)
    requires NonNegative(v2List)
    ensures V2Of(v2List) >= 0.0
  {
    SumNonNegative(v2List);
    if v2List != [] {
      var n := |v2List| as real;
      assert SumR(v2List) / n >= 0.0;
    }
  }

  /**
   * `cal_v2(bbox_list, detection_sequence)` with the default method 'area': the state list,
   * its rates, and their halved mean; never negative.
   */
  method CalV2(boxes: seq<Box>, ds: seq<int>) returns (v: real)
    ensures v == V2Of(V2Area(StateList(boxes, ds), boxes))
    ensures v >= 0.0
  {
    var states := CalStateList(boxes, ds);
    var v2List := V2AreaLoop(states, boxes);
    V2OfNonNegative(v2List);
    v := V2Of(v2List);
  }
}
