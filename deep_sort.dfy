/**
 * The box-format conversions of the DeepSORT wrapper
 * (yolo_detect/DeepSORT/deep_sort/deep_sort.py): centre-based `xywh`, top-left-based
 * `tlwh` and corner-based `xyxy` boxes, with the corners truncated to integers and
 * clamped to the frame `[0, width - 1] x [0, height - 1]`.
 */
module DeepSort {
  import opened Common

  /** A box given by a reference point and a size: `(x, y, w, h)`. */
  datatype Rect = Rect(x: real, y: real, w: real, h: real)

  function Max(a: int, b: int): (m: int)
    ensures m >= a && m >= b && (m == a || m == b)
  {
    if a >= b then a else b
  }

  function Min(a: int, b: int): (m: int)
    ensures m <= a && m <= b && (m == a || m == b)
  {
    if a <= b then a else b
  }

  /** `_xywh_to_tlwh`: every row moved from its centre to its top-left corner; sizes are copied. */
  function XywhToTlwh(rows: seq<Rect>): (r: seq<Rect>)
    ensures |r| == |rows|
    ensures forall i :: 0 <= i < |r| ==> r[i].w == rows[i].w && r[i].h == rows[i].h
    ensures forall i :: 0 <= i < |r| ==> r[i].x + r[i].w / 2.0 == rows[i].x && r[i].y + r[i].h / 2.0 == rows[i].y
  {
    seq(|rows|, i requires 0 <= i < |rows| => Rect(rows[i].x - rows[i].w / 2.0, rows[i].y - rows[i].h / 2.0, rows[i].w, rows[i].h))
  }

  /** The corners of a box inside a `width` x `height` frame. */
  predicate InFrame(b: Box, width: int, height: int)
  {
    0 <= b.x1 && 0 <= b.y1 && b.x2 <= width - 1 && b.y2 <= height - 1
  }

  /**
   * `_xywh_to_xyxy`: the corners of a centre-based box, truncated and clamped to the frame.
   * Each corner is the truncated one unless that lies outside the frame.
   */
  function XywhToXyxy(b: Rect, width: int, height: int): (r: Box)
    ensures InFrame(r, width, height)
    ensures r.x1 >= Trunc(b.x - b.w / 2.0) && (r.x1 == 0 || r.x1 == Trunc(b.x - b.w / 2.0))
    ensures r.y1 >= Trunc(b.y - b.h / 2.0) && (r.y1 == 0 || r.y1 == Trunc(b.y - b.h / 2.0))
    ensures r.x2 <= Trunc(b.x + b.w / 2.0) && (r.x2 == width - 1 || r.x2 == Trunc(b.x + b.w / 2.0))
    ensures r.y2 <= Trunc(b.y + b.h / 2.0) && (r.y2 == height - 1 || r.y2 == Trunc(b.y + b.h / 2.0))
  {
    Box(Max(Trunc(b.x - b.w / 2.0), 0), Max(Trunc(b.y - b.h / 2.0), 0),
        Min(Trunc(b.x + b.w / 2.0), width - 1), Min(Trunc(b.y + b.h / 2.0), height - 1))
  }

  /** `_tlwh_to_xyxy`: the corners of a top-left-based box, truncated and clamped to the frame. */
  function TlwhToXyxy(b: Rect, width: int, height: int): (r: Box)
    ensures InFrame(r, width, height)
    ensures r.x1 >= Trunc(b.x) && (r.x1 == 0 || r.x1 == Trunc(b.x))
    ensures r.y1 >= Trunc(b.y) && (r.y1 == 0 || r.y1 == Trunc(b.y))
    ensures r.x2 <= Trunc(b.x + b.w) && (r.x2 == width - 1 || r.x2 == Trunc(b.x + b.w))
    ensures r.y2 <= Trunc(b.y + b.h) && (r.y2 == height - 1 || r.y2 == Trunc(b.y + b.h))
  {
    Box(Max(Trunc(b.x), 0), Max(Trunc(b.y), 0), Min(Trunc(b.x + b.w), width - 1), Min(Trunc(b.y + b.h), height - 1))
  }

  /** `_xyxy_to_tlwh` on integer corners: the top-left corner and the two side lengths. */
  function XyxyToTlwh(b: Box): (r: Rect)
    ensures r.x + r.w == b.x2 as real && r.y + r.h == b.y2 as real
    ensures r.x == b.x1 as real && r.y == b.y1 as real
  {
    Rect(b.x1 as real, b.y1 as real, (b.x2 - b.x1) as real, (b.y2 - b.y1) as real)
  }

  /** Corners inside the frame survive the trip to `tlwh` and back unchanged. */
  lemma CornersRoundTrip(b: Box, width: int, height: int)
    requires InFrame(b, width, height)
    ensures TlwhToXyxy(XyxyToTlwh(b), width, height) == b
  {
  }

  /** The centre-based conversion is the top-left conversion after moving to the top-left corner. */
  lemma CentreThroughTopLeft(b: Rect, width: int, height: int)
    ensures XywhToXyxy(b, width, height) == TlwhToXyxy(XywhToTlwh([b])[0], width, height)
  {
    var t := XywhToTlwh([b])[0];
    assert t.x + t.w == b.x + b.w / 2.0;
    assert t.y + t.h == b.y + b.h / 2.0;
  }
}
