/**
 * The overlap test of small_protozoa/sports_type.py: intersection over union of two
 * integer output rows `(x1, y1, x2, y2, track_id)`.
 */
module SportsType {
  import opened Common

  /** One output row: a box and the track id, which the overlap test ignores. */
  datatype Output = Output(box: Box, trackId: int)

  function Max(a: int, b: int): (m: int)
    ensures m >= a && m >= b && (m == a || m == b)
  {
    if a >= b then a else b
  }

  function Min(a: int, b: int): (m: int)
    ensures m <= a && m <= b && (m == a || m == b)
  {
    if a <= b then a else b
  }

  /** `(x2 - x1) * (y2 - y1)`. */
  function Area(b: Box): int
  {
    (b.x2 - b.x1) * (b.y2 - b.y1)
  }

  /** The area two boxes share; 0 when they are apart in either direction. */
  function InterArea(a: Box, b: Box): (r: int)
    ensures r >= 0
    ensures Min(a.x2, b.x2) <= Max(a.x1, b.x1) || Min(a.y2, b.y2) <= Max(a.y1, b.y1) ==> r == 0
  {
    Max(0, Min(a.x2, b.x2) - Max(a.x1, b.x1)) * Max(0, Min(a.y2, b.y2) - Max(a.y1, b.y1))
  }

  /**
   * `is_same`: intersection over union. A zero union raises ZeroDivisionError in the source;
   * here it is `None`.
   */
  function IsSame(o1: Output, o2: Output): (r: Option<real>)
    ensures r.None? <==> Area(o1.box) + Area(o2.box) - InterArea(o1.box, o2.box) == 0
    ensures r.Some? ==> r.value * (Area(o1.box) + Area(o2.box) - InterArea(o1.box, o2.box)) as real
                        == InterArea(o1.box, o2.box) as real
  {
    var union := Area(o1.box) + Area(o2.box) - InterArea(o1.box, o2.box);
    if union == 0 then None else Some(InterArea(o1.box, o2.box) as real / union as real)
  }

  /** A box with its corners in order. */
  predicate Ordered(b: Box)
  {
    b.x1 <= b.x2 && b.y1 <= b.y2
  }

  lemma MulMono(a: int, b: int, c: int, d: int)
    requires 0 <= a <= c && 0 <= b <= d
    ensures a * b <= c * d
  {
    assert a * b <= c * b;
    assert c * b <= c * d;
  }

  /** The shared area of ordered boxes lies within each box's area. */
  lemma InterWithin(a: Box, b: Box)
    requires Ordered(a) && Ordered(b)
    ensures InterArea(a, b) <= Area(a) && InterArea(a, b) <= Area(b)
  {
    var w, h := Max(0, Min(a.x2, b.x2) - Max(a.x1, b.x1)), Max(0, Min(a.y2, b.y2) - Max(a.y1, b.y1));
    MulMono(w, h, a.x2 - a.x1, a.y2 - a.y1);
    MulMono(w, h, b.x2 - b.x1, b.y2 - b.y1);
  }

  /** For ordered boxes with a non-empty union the ratio lies in [0, 1]. */
  lemma IsSameBounds(o1: Output, o2: Output)
    requires Ordered(o1.box) && Ordered(o2.box) && IsSame(o1, o2).Some?
    ensures 0.0 <= IsSame(o1, o2).value <= 1.0
  {
    InterWithin(o1.box, o2.box);
    var i, u := InterArea(o1.box, o2.box) as real, (Area(o1.box) + Area(o2.box) - InterArea(o1.box, o2.box)) as real;
    assert 0.0 <= i <= u;
    assert u > 0.0;
    assert IsSame(o1, o2).value == i / u;
    assert i / u <= u / u;
  }

  /** A box of positive area overlaps itself completely. */
  lemma IsSameIdentical(o1: Output, o2: Output)
    requires o1.box == o2.box && o1.box.x1 < o1.box.x2 && o1.box.y1 < o1.box.y2
    ensures IsSame(o1, o2) == Some(1.0)
  {
    var b := o1.box;
    assert InterArea(b, b) == Area(b);
    MulMono(1, 1, b.x2 - b.x1, b.y2 - b.y1);
    var a := Area(b) as real;
    assert a > 0.0 && a / a == 1.0;
  }

  /** The track ids play no part, and the test is symmetric. */
  lemma IsSameIgnoresIds(o1: Output, o2: Output, id1: int, id2: int)
    ensures IsSame(o1, o2) == IsSame(Output(o1.box, id1), Output(o2.box, id2)) == IsSame(o2, o1)
  {
    assert InterArea(o1.box, o2.box) == InterArea(o2.box, o1.box);
  }
}
