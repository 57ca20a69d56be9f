/**
 * Values shared by the trackers, record managers and index calculations:
 * optional values, points, translation vectors, integer boxes, the large-organism
 * labels, and the detection-sequence helpers (counting detections and trimming the
 * trailing undetected frames).
 */
module Common {

  datatype Option<T> = None | Some(value: T)

  /** A position in image coordinates (pixels). Python floats and ints both become reals. */
  datatype Point = Point(x: real, y: real)

  /** The global camera translation between two consecutive frames. */
  datatype Vec = Vec(dx: real, dy: real)

  /** An integer box (x1, y1, x2, y2), as the detector and the tracker emit them. */
  datatype Box = Box(x1: int, y1: int, x2: int, y2: int)

  /** A small-organism candidate from the frame-difference detector: centre and area. */
  datatype Message = Message(x: int, y: int, area: int)

  /** The six large-organism classes, in the order of their class codes 0..5. */
  datatype Label = Gs | Mo | Do | Eu | Ne | Ar

  /** The verdict `'live'` or `'die'` of the aliveness tests. */
  datatype Vitality = Live | Die

  /** Python's `int()` applied to a float: truncation toward zero. */
  function Trunc(r: real): (i: int)
    ensures r >= 0.0 ==> 0 <= i && i as real <= r < i as real + 1.0
    ensures r < 0.0 ==> i <= 0 && i as real - 1.0 < r <= i as real
  {
    if r >= 0.0 then r.Floor else -((-r).Floor)
  }

  /** `(int(p[0] + dx), int(p[1] + dy))`: a point moved by a translation and truncated. */
  function ShiftTrunc(p: Point, t: Vec): Point
  {
    Point(Trunc(p.x + t.dx) as real, Trunc(p.y + t.dy) as real)
  }

  /** Every point of a history moved by the same translation, in place and in order. */
  function ShiftAll(ps: seq<Point>, t: Vec): (r: seq<Point>)
    ensures |r| == |ps|
    ensures forall i :: 0 <= i < |ps| ==> r[i] == ShiftTrunc(ps[i], t)
  {
    seq(|ps|, i requires 0 <= i < |ps| => ShiftTrunc(ps[i], t))
  }

  /** `list.count(1)` on a detection sequence. */
  function CountOnes(s: seq<int>): (n: nat)
    ensures n <= |s|
  {
    if s == [] then 0 else CountOnes(s[..|s| - 1]) + (if s[|s| - 1] == 1 then 1 else 0)
  }

  /** `sum(list)` on a list of integers. */
  function Sum(s: seq<int>): int
  {
    if s == [] then 0 else Sum(s[..|s| - 1]) + s[|s| - 1]
  }

  /** A detection sequence holds only the flags 0 and 1. */
  predicate IsBits(s: seq<int>)
  {
    forall i :: 0 <= i < |s| ==> s[i] == 0 || s[i] == 1
  }

  /**
   * The effect of `while seq and seq[-1] == 0: seq.pop()`: the longest prefix that does not
   * end in an undetected frame; everything cut off was 0.
   */
  function TrimTrailingZeros(s: seq<int>): (r: seq<int>)
    ensures |r| <= |s| && r == s[..|r|]
    ensures r == [] || r[|r| - 1] != 0
    ensures forall i :: |r| <= i < |s| ==> s[i] == 0
  {
    if s != [] && s[|s| - 1] == 0 then TrimTrailingZeros(s[..|s| - 1]) else s
  }

  /** On a 0/1 sequence the sum is the number of detections. */
  lemma {:induction false} SumOfBits(s: seq<int>)
    requires IsBits(s)
    ensures Sum(s) == CountOnes(s)
  {
    if s != [] {
      SumOfBits(s[..|s| - 1]);
    }
  }

  /** Trimming removes only undetected frames, so the number of detections is kept. */
  lemma {:induction false} TrimKeepsOnes(s: seq<int>)
    ensures CountOnes(TrimTrailingZeros(s)) == CountOnes(s)
  {
    if s != [] && s[|s| - 1] == 0 {
      TrimKeepsOnes(s[..|s| - 1]);
    }
  }

  /** A sequence that holds a detection keeps one after trimming, and then ends in it. */
  lemma TrimEndsInDetection(s: seq<int>)
    requires IsBits(s) && CountOnes(s) > 0
    ensures |TrimTrailingZeros(s)| > 0
    ensures TrimTrailingZeros(s)[|TrimTrailingZeros(s)| - 1] == 1
  {
    TrimKeepsOnes(s);
  }

  /** The count of detections in a prefix never exceeds the count in the whole sequence. */
  lemma {:induction false} CountOnesPrefix(s: seq<int>, k: nat)
    requires k <= |s|
    ensures CountOnes(s[..k]) <= CountOnes(s)
    decreases |s|
  {
    if k < |s| {
      assert s[..k] == s[..|s| - 1][..k];
      CountOnesPrefix(s[..|s| - 1], k);
    } else {
      assert s[..k] == s;
    }
  }

  /** Appending one flag adds it to the count of detections. */
  lemma CountOnesAppend(s: seq<int>, b: int)
    ensures CountOnes(s + [b]) == CountOnes(s) + (if b == 1 then 1 else 0)
  {
    assert (s + [b])[..|s|] == s;
  }

  /** No id is listed twice. */
  predicate Distinct(order: seq<int>)
  {
    forall i, j :: 0 <= i < j < |order| ==> order[i] != order[j]
  }

  /** The order of a dictionary's keys after removals: the old order restricted to the survivors. */
  function Restrict(order: seq<int>, keys: set<int>): (r: seq<int>)
    ensures forall id :: id in r <==> id in order && id in keys
  {
    if order == [] then []
    else
      var id := order[|order| - 1];
      Restrict(order[..|order| - 1], keys) + (if id in keys then [id] else [])
  }

  /** Restricting a duplicate-free order keeps it duplicate-free. */
  lemma {:induction false} RestrictDistinct(order: seq<int>, keys: set<int>)
    requires Distinct(order)
    ensures Distinct(Restrict(order, keys))
  {
    if order != [] {
      var n := |order| - 1;
      assert order == order[..n] + [order[n]];
      RestrictDistinct(order[..n], keys);
      var r0 := Restrict(order[..n], keys);
      assert order[n] !in r0 by {
        assert order[n] !in order[..n];
      }
      if order[n] in keys {
        var r := r0 + [order[n]];
        assert Restrict(order, keys) == r;
        forall i, j | 0 <= i < j < |r| ensures r[i] != r[j] {
          if j == |r0| {
            assert r0[i] in r0;
          }
        }
      } else {
        assert Restrict(order, keys) == r0;
      }
    }
  }

  /** Restricting to every key of the order changes nothing. */
  lemma {:induction false} RestrictAll(order: seq<int>, keys: set<int>)
    requires forall id :: id in order ==> id in keys
    ensures Restrict(order, keys) == order
  {
    if order != [] {
      var n := |order| - 1;
      assert order == order[..n] + [order[n]];
      RestrictAll(order[..n], keys);
    }
  }

  /** Restricting twice is restricting once to the smaller key set. */
  lemma {:induction false} RestrictRestrict(order: seq<int>, keys: set<int>, fewer: set<int>)
    requires fewer <= keys
    ensures Restrict(Restrict(order, keys), fewer) == Restrict(order, fewer)
  {
    if order != [] {
      var n := |order| - 1;
      var r0 := Restrict(order[..n], keys);
      RestrictRestrict(order[..n], keys, fewer);
      if order[n] in keys {
        var r := r0 + [order[n]];
        assert Restrict(order, keys) == r;
        assert r[..|r0|] == r0 && r[|r0|] == order[n];
        assert Restrict(r, fewer) == Restrict(r0, fewer) + (if order[n] in fewer then [order[n]] else []);
      } else {
        assert Restrict(order, keys) == r0;
        assert order[n] !in fewer;
      }
    }
  }
}
