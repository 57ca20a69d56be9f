/**
 * The large-box region filter of the small-organism pipeline (small_protozoa/bugs_filter.py).
 *
 * The large organisms found by the neural tracker leave "shadow" boxes. A `BBox` keeps one of
 * them alive for SERVAL_TIME frames; while it is seen its location is overwritten, otherwise it
 * drifts with the camera. `BBoxFilter.Filter` drops every small-organism candidate that lies
 * in a box (widened by OFFSET) or next to the left or right edge of the screen.
 *
 * `BoxData` is the value of a box's mutable fields; `Relocated`, `Shifted` and `Registered`
 * say what the updates do to those values, and the lemmas after them state the promises.
 */
module BugsFilter {
  import opened Common

  /** Frames a box is kept without being seen again (BBox.SERVAL_TIME). */
  const SERVAL_TIME: int := 80
  /** The margin, in pixels, by which a box is widened on every side (BBox.OFFSET). */
  const OFFSET: real := 5.0
  /** Candidates this close to the left or right edge are dropped (BBoxFilter.edge). */
  const EDGE: int := 10
  /** The default screen size (BBoxFilter.width, BBoxFilter.height). */
  const DEFAULT_WIDTH: int := 1824
  const DEFAULT_HEIGHT: int := 1216

  /** The mutable fields of a box. Translations are real, so the coordinates are too. */
  datatype BoxData = BoxData(trackId: int, left: real, top: real, right: real, bottom: real, servalTime: int)

  /** One row `x1, y1, x2, y2, track_id` of the neural tracker's output. */
  datatype Output = Output(box: Box, trackId: int)

  /** The boxes in dictionary order together with their states. */
  datatype Registry = Registry(order: seq<int>, states: map<int, BoxData>)

  /** `BBox.__init__`: a box seen for the first time. */
  function Fresh(o: Output): BoxData
  {
    BoxData(o.trackId, o.box.x1 as real, o.box.y1 as real, o.box.x2 as real, o.box.y2 as real, SERVAL_TIME)
  }

  /** The box occupies exactly the integer box `b`. */
  predicate Placed(d: BoxData, b: Box)
  {
    d.left == b.x1 as real && d.top == b.y1 as real && d.right == b.x2 as real && d.bottom == b.y2 as real
  }

  /** `inside`: the point lies in the box widened by OFFSET on every side. */
  predicate Covers(d: BoxData, x: real, y: real)
  {
    d.left - OFFSET <= x <= d.right + OFFSET && d.top - OFFSET <= y <= d.bottom + OFFSET
  }

  /** `out_of_screen`: the time is up, or the box has left through the left or the top edge. */
  predicate Gone(d: BoxData)
  {
    d.servalTime <= 0 || d.right <= 0.0 || d.bottom <= 0.0
  }

  /** `update_location`: a box seen again takes the new location and loses one frame. */
  function Relocated(d: BoxData, b: Box): (r: BoxData)
    ensures Placed(r, b) && r.trackId == d.trackId && r.servalTime == d.servalTime - 1
  {
    d.(left := b.x1 as real, top := b.y1 as real, right := b.x2 as real, bottom := b.y2 as real,
       servalTime := d.servalTime - 1)
  }

  /** `update_translation`: a box not seen drifts with the camera and loses one frame. */
  function Shifted(d: BoxData, t: Vec): (r: BoxData)
    ensures r.right - r.left == d.right - d.left && r.bottom - r.top == d.bottom - d.top
    ensures r.trackId == d.trackId && r.servalTime == d.servalTime - 1
  {
    d.(left := d.left + t.dx, top := d.top + t.dy, right := d.right + t.dx, bottom := d.bottom + t.dy,
       servalTime := d.servalTime - 1)
  }

  /** A point that moves with the camera stays inside a box that moves with it, and vice versa. */
  lemma ShiftedCovers(d: BoxData, t: Vec, x: real, y: real)
    ensures Covers(Shifted(d, t), x + t.dx, y + t.dy) <==> Covers(d, x, y)
  {
  }

  /** The first loop of `update_bbox` for one output: create the box, or overwrite its location. */
  function Register(r: Registry, o: Output): Registry
  {
    if o.trackId in r.states then Registry(r.order, r.states[o.trackId := Relocated(r.states[o.trackId], o.box)])
    else Registry(r.order + [o.trackId], r.states[o.trackId := Fresh(o)])
  }

  /** The first loop of `update_bbox`: every output registered, in order. */
  function RegisterAll(r: Registry, outputs: seq<Output>): Registry
  {
    if outputs == [] then r else Register(RegisterAll(r, outputs[..|outputs| - 1]), outputs[|outputs| - 1])
  }

  /** `bbox_id_set`: the ids of the outputs. */
  function OutputIds(outputs: seq<Output>): (s: set<int>)
    ensures forall id :: id in s <==> exists k :: 0 <= k < |outputs| && outputs[k].trackId == id
  {
    set k | 0 <= k < |outputs| :: outputs[k].trackId
  }

  /** The second loop of `update_bbox`: every box not among `seen` drifts with the camera. */
  function Drifted(states: map<int, BoxData>, seen: set<int>, t: Vec): (r: map<int, BoxData>)
    ensures r.Keys == states.Keys
  {
    map id | id in states :: if id in seen then states[id] else Shifted(states[id], t)
  }

  /** `update_bbox`: the outputs are registered; with a translation the unseen boxes then drift. */
  function Updated(r: Registry, outputs: seq<Output>, translation: Option<Vec>): Registry
  {
    var l := RegisterAll(r, outputs);
    match translation
    case None => l
    case Some(t) => Registry(l.order, Drifted(l.states, OutputIds(outputs), t))
  }

  /** How often `id` occurs among the outputs. */
  function Occurrences(id: int, outputs: seq<Output>): nat
  {
    if outputs == [] then 0
    else Occurrences(id, outputs[..|outputs| - 1]) + (if outputs[|outputs| - 1].trackId == id then 1 else 0)
  }

  /** The box of the last output with this id. */
  function LastBox(id: int, outputs: seq<Output>): Option<Box>
  {
    if outputs == [] then None
    else if outputs[|outputs| - 1].trackId == id then Some(outputs[|outputs| - 1].box)
    else LastBox(id, outputs[..|outputs| - 1])
  }

  /** The dictionary's key order lists every key exactly once. */
  ghost predicate Listing(r: Registry)
  {
    && Distinct(r.order)
    && (forall id :: id in r.states <==> id in r.order)
  }

  lemma OutputIdsSnoc(outputs: seq<Output>, o: Output)
    ensures OutputIds(outputs + [o]) == OutputIds(outputs) + {o.trackId}
  {
    var s := outputs + [o];
    forall id | id in OutputIds(outputs) ensures id in OutputIds(s) {
      var k :| 0 <= k < |outputs| && outputs[k].trackId == id;
      assert s[k].trackId == id;
    }
    assert s[|outputs|].trackId == o.trackId;
  }

  /** Registering the first `i + 1` outputs registers the first `i`, then output `i`. */
  lemma RegisterAllSnoc(r: Registry, outputs: seq<Output>, i: int)
    requires 0 <= i < |outputs|
    ensures RegisterAll(r, outputs[..i + 1]) == Register(RegisterAll(r, outputs[..i]), outputs[i])
  {
    assert outputs[..i + 1][..i] == outputs[..i];
  }

  /** Registering keeps the key order a listing of the keys: a new id is appended once. */
  lemma {:induction false} RegisterAllListing(r: Registry, outputs: seq<Output>)
    requires Listing(r)
    ensures Listing(RegisterAll(r, outputs))
  {
    if outputs != [] {
      RegisterAllListing(r, outputs[..|outputs| - 1]);
    }
  }

  /** Registering makes the keys the old ones and the ids of the outputs. */
  lemma {:induction false} RegisterAllKeys(r: Registry, outputs: seq<Output>)
    ensures RegisterAll(r, outputs).states.Keys == r.states.Keys + OutputIds(outputs)
  {
    if outputs != [] {
      var n := |outputs| - 1;
      RegisterAllKeys(r, outputs[..n]);
      OutputIdsSnoc(outputs[..n], outputs[n]);
      assert outputs[..n] + [outputs[n]] == outputs;
    }
  }

  /** Registering only appends to the key order. */
  lemma {:induction false} RegisterAllPrefix(r: Registry, outputs: seq<Output>)
    ensures |r.order| <= |RegisterAll(r, outputs).order| && RegisterAll(r, outputs).order[..|r.order|] == r.order
  {
    if outputs != [] {
      var n := |outputs| - 1;
      RegisterAllPrefix(r, outputs[..n]);
      var l := RegisterAll(r, outputs[..n]);
      if outputs[n].trackId !in l.states {
        assert (l.order + [outputs[n].trackId])[..|r.order|] == l.order[..|r.order|];
      }
    }
  }

  /** An id that is not among the outputs keeps its box, or stays absent. */
  lemma {:induction false} RegisterAllUntouched(r: Registry, outputs: seq<Output>, id: int)
    requires id !in OutputIds(outputs)
    ensures id in RegisterAll(r, outputs).states <==> id in r.states
    ensures id in r.states ==> RegisterAll(r, outputs).states[id] == r.states[id]
  {
    if outputs != [] {
      var n := |outputs| - 1;
      OutputIdsSnoc(outputs[..n], outputs[n]);
      assert outputs == outputs[..n] + [outputs[n]];
      RegisterAllUntouched(r, outputs[..n], id);
    }
  }

  /**
   * An id among the outputs ends in the location of its last output. A new id starts at
   * SERVAL_TIME and every later occurrence costs a frame; a known id loses a frame per
   * occurrence.
   */
  lemma {:induction false} RegisterAllLast(r: Registry, outputs: seq<Output>, id: int)
    requires id in OutputIds(outputs)
    ensures id in RegisterAll(r, outputs).states && LastBox(id, outputs).Some?
    ensures var d := RegisterAll(r, outputs).states[id];
      && Placed(d, LastBox(id, outputs).value)
      && d.servalTime == (if id in r.states then r.states[id].servalTime else SERVAL_TIME + 1) - Occurrences(id, outputs)
      && d.trackId == (if id in r.states then r.states[id].trackId else id)
  {
    var n := |outputs| - 1;
    var init := outputs[..n];
    OutputIdsSnoc(init, outputs[n]);
    assert outputs == init + [outputs[n]];
    if id in OutputIds(init) {
      RegisterAllLast(r, init, id);
    } else {
      RegisterAllUntouched(r, init, id);
      if id != outputs[n].trackId {
        assert false;
      }
      assert Occurrences(id, init) == 0 by {
        NoOccurrences(id, init);
      }
    }
  }

  /** An id that is not among the outputs does not occur in them. */
  lemma {:induction false} NoOccurrences(id: int, outputs: seq<Output>)
    requires id !in OutputIds(outputs)
    ensures Occurrences(id, outputs) == 0
  {
    if outputs != [] {
      var n := |outputs| - 1;
      OutputIdsSnoc(outputs[..n], outputs[n]);
      assert outputs == outputs[..n] + [outputs[n]];
      NoOccurrences(id, outputs[..n]);
    }
  }

  /**
   * The promise of `update_bbox` for the boxes that were not seen: they drift with the camera
   * when a translation is given, and are untouched otherwise. Seen boxes never drift.
   */
  lemma UpdatedUnseen(r: Registry, outputs: seq<Output>, translation: Option<Vec>, id: int)
    requires id in r.states && id !in OutputIds(outputs)
    ensures id in Updated(r, outputs, translation).states
    ensures Updated(r, outputs, translation).states[id] ==
      if translation.Some? then Shifted(r.states[id], translation.value) else r.states[id]
  {
    RegisterAllUntouched(r, outputs, id);
  }

  /** A seen box is where its last output put it, whatever the translation. */
  lemma UpdatedSeen(r: Registry, outputs: seq<Output>, translation: Option<Vec>, id: int)
    requires id in OutputIds(outputs)
    ensures id in Updated(r, outputs, translation).states
    ensures Updated(r, outputs, translation).states[id] == RegisterAll(r, outputs).states[id]
  {
    RegisterAllLast(r, outputs, id);
  }

  /** `_near_the_edge`: only the x coordinate is looked at. */
  predicate NearEdge(width: int, x: int)
  {
    x <= EDGE || x >= width - EDGE
  }

  /** The inner loop of `filter`: some box of the dictionary covers the point. */
  function Blocked(order: seq<int>, states: map<int, BoxData>, x: real, y: real): bool
  {
    if order == [] then false
    else Blocked(order[..|order| - 1], states, x, y) ||
         (order[|order| - 1] in states && Covers(states[order[|order| - 1]], x, y))
  }

  /** `filter`: the candidates in no box and not at an edge, in their original order. */
  function Passing(order: seq<int>, states: map<int, BoxData>, width: int, messages: seq<Message>): seq<Message>
  {
    if messages == [] then []
    else
      var m := messages[|messages| - 1];
      Passing(order, states, width, messages[..|messages| - 1]) +
        (if !Blocked(order, states, m.x as real, m.y as real) && !NearEdge(width, m.x) then [m] else [])
  }

  /** The point is blocked exactly when some listed box covers it. */
  lemma {:induction false} BlockedIff(order: seq<int>, states: map<int, BoxData>, x: real, y: real)
    requires forall id :: id in order ==> id in states
    ensures Blocked(order, states, x, y) <==> exists id :: id in order && Covers(states[id], x, y)
  {
    if order != [] {
      var n := |order| - 1;
      assert order == order[..n] + [order[n]];
      BlockedIff(order[..n], states, x, y);
      if Blocked(order, states, x, y) && !Blocked(order[..n], states, x, y) {
        assert order[n] in order && Covers(states[order[n]], x, y);
      }
      if exists id :: id in order && Covers(states[id], x, y) {
        var id :| id in order && Covers(states[id], x, y);
        if id !in order[..n] {
          assert id == order[n];
        }
      }
    }
  }

  /** A candidate passes the filter exactly when it is in the input, in no box and not at an edge. */
  lemma {:induction false} PassingIff(order: seq<int>, states: map<int, BoxData>, width: int, messages: seq<Message>, m: Message)
    ensures m in Passing(order, states, width, messages) <==>
      m in messages && !Blocked(order, states, m.x as real, m.y as real) && !NearEdge(width, m.x)
  {
    if messages != [] {
      var n := |messages| - 1;
      assert messages == messages[..n] + [messages[n]];
      PassingIff(order, states, width, messages[..n], m);
    }
  }

  /** Filtering two batches one after the other is filtering them together: order is kept. */
  lemma {:induction false} PassingAppend(order: seq<int>, states: map<int, BoxData>, width: int, a: seq<Message>, b: seq<Message>)
    ensures Passing(order, states, width, a + b) == Passing(order, states, width, a) + Passing(order, states, width, b)
  {
    if b == [] {
      assert a + b == a;
    } else {
      var n := |b| - 1;
      assert (a + b)[..|a + b| - 1] == a + b[..n];
      assert (a + b)[|a + b| - 1] == b[n];
      PassingAppend(order, states, width, a, b[..n]);
    }
  }

  /** The ids of the boxes `clear()` removes, in dictionary order. */
  function GoneIds(order: seq<int>, states: map<int, BoxData>): (r: seq<int>)
    ensures forall id :: id in r ==> id in order
  {
    if order == [] then []
    else
      var id := order[|order| - 1];
      GoneIds(order[..|order| - 1], states) + (if id in states && Gone(states[id]) then [id] else [])
  }

  /** The removed ids are exactly the listed ids whose box is out of the screen. */
  lemma {:induction false} GoneIdsIff(order: seq<int>, states: map<int, BoxData>, id: int)
    ensures id in GoneIds(order, states) <==> id in order && id in states && Gone(states[id])
  {
    if order != [] {
      var n := |order| - 1;
      assert order == order[..n] + [order[n]];
      GoneIdsIff(order[..n], states, id);
    }
  }

  /** `clear()` finds nothing more to remove right after a `clear()`. */
  lemma {:induction false} ClearTwice(order: seq<int>, states: map<int, BoxData>)
    ensures GoneIds(Restrict(order, set id | id in states && !Gone(states[id])), states) == []
  {
    if order != [] {
      var n := |order| - 1;
      var keys := set id | id in states && !Gone(states[id]);
      assert order == order[..n] + [order[n]];
      ClearTwice(order[..n], states);
      var r0 := Restrict(order[..n], keys);
      if order[n] in keys {
        assert Restrict(order, keys) == r0 + [order[n]];
        assert (r0 + [order[n]])[..|r0|] == r0;
        assert order[n] in states && !Gone(states[order[n]]);
      } else {
        assert Restrict(order, keys) == r0;
      }
    }
  }

  /** A shadow box (small_protozoa/bugs_filter.py, class BBox). */
  class BBox {
    const trackId: int
    var left: real
    var top: real
    var right: real
    var bottom: real
    var servalTime: int

    function Data(): BoxData
      reads this
    {
      BoxData(trackId, left, top, right, bottom, servalTime)
    }

    constructor (o: Output)
      ensures Data() == Fresh(o)
    {
      trackId := o.trackId;
      left, top, right, bottom := o.box.x1 as real, o.box.y1 as real, o.box.x2 as real, o.box.y2 as real;
      servalTime := SERVAL_TIME;
    }

    predicate Inside(x: real, y: real)
      reads this
    {
      Covers(Data(), x, y)
    }

    predicate OutOfScreen()
      reads this
    {
      Gone(Data())
    }

    method UpdateLocation(b: Box)
      modifies this
      ensures Data() == Relocated(old(Data()), b)
    {
      servalTime := servalTime - 1;
      left, top, right, bottom := b.x1 as real, b.y1 as real, b.x2 as real, b.y2 as real;
    }

    method UpdateTranslation(t: Vec)
      modifies this
      ensures Data() == Shifted(old(Data()), t)
    {
      servalTime := servalTime - 1;
      left := left + t.dx;
      right := right + t.dx;
      top := top + t.dy;
      bottom := bottom + t.dy;
    }
  }

  /** Distinct ids hold distinct box objects. */
  ghost predicate Injective(boxes: map<int, BBox>)
  {
    forall a, b :: a in boxes && b in boxes && a != b ==> boxes[a] != boxes[b]
  }

  /** Every box of `boxes` is in the state `states` gives for its id, and nothing else is listed. */
  ghost predicate HoldsIn(boxes: map<int, BBox>, states: map<int, BoxData>)
    reads boxes.Values
  {
    boxes.Keys == states.Keys && forall id :: id in boxes ==> boxes[id].Data() == states[id]
  }

  /** The filter (small_protozoa/bugs_filter.py, class BBoxFilter). */
  class BBoxFilter {
    var width: int
    var height: int
    var boxes: map<int, BBox>
    var order: seq<int>

    /** `order` is the dictionary order of the keys; distinct ids hold distinct boxes. */
    ghost predicate Valid()
      reads this`boxes, this`order
    {
      && Distinct(order)
      && (forall id :: id in boxes <==> id in order)
      && Injective(boxes)
    }

    ghost function States(): map<int, BoxData>
      reads this, boxes.Values
    {
      map id | id in boxes :: boxes[id].Data()
    }

    constructor ()
      ensures Valid() && width == DEFAULT_WIDTH && height == DEFAULT_HEIGHT && boxes == map[] && order == []
    {
      width, height := DEFAULT_WIDTH, DEFAULT_HEIGHT;
      boxes, order := map[], [];
    }

    method SetWidth(w: int)
      modifies this`width
      ensures width == w
    {
      width := w;
    }

    method SetHeight(h: int)
      modifies this`height
      ensures height == h
    {
      height := h;
    }

    /** The first loop of `update_bbox` for one output. */
    method Locate(o: Output, ghost now: map<int, BoxData>)
      requires Valid() && HoldsIn(boxes, now)
      modifies this`boxes, this`order, boxes.Values
      ensures Valid() && HoldsIn(boxes, Register(Registry(old(order), now), o).states)
      ensures order == Register(Registry(old(order), now), o).order
      ensures forall id :: id in old(boxes) ==> id in boxes && boxes[id] == old(boxes)[id]
      ensures forall id :: id in boxes && id !in old(boxes) ==> fresh(boxes[id])
      ensures forall b :: b in boxes.Values ==> b in old(boxes).Values || fresh(b)
    {
      var id := o.trackId;
      if id !in boxes {
        var box := new BBox(o);
        boxes := boxes[id := box];
        order := order + [id];
      } else {
        var box := boxes[id];
        box.UpdateLocation(o.box);
        forall other | other in boxes && other != id ensures boxes[other].Data() == old(boxes[other].Data()) {
          assert boxes[other] != box;
        }
      }
    }

    /** The second loop of `update_bbox` for one unseen box. */
    method Drift(id: int, t: Vec, ghost now: map<int, BoxData>)
      requires Injective(boxes) && HoldsIn(boxes, now) && id in boxes
      modifies boxes[id]
      ensures HoldsIn(boxes, now[id := Shifted(now[id], t)])
    {
      var box := boxes[id];
      box.UpdateTranslation(t);
      forall other | other in boxes && other != id ensures boxes[other].Data() == old(boxes[other].Data()) {
        assert boxes[other] != box;
      }
    }

    /** The first loop of `update_bbox`: every output registered in order. */
    method LocateAll(outputs: seq<Output>)
      requires Valid()
      modifies this`boxes, this`order, boxes.Values
      ensures Valid()
      ensures var r := RegisterAll(Registry(old(order), old(States())), outputs);
        order == r.order && HoldsIn(boxes, r.states)
      ensures forall id :: id in old(boxes) ==> id in boxes && boxes[id] == old(boxes)[id]
      ensures forall id :: id in boxes && id !in old(boxes) ==> fresh(boxes[id])
      ensures forall b :: b in boxes.Values ==> b in old(boxes).Values || fresh(b)
    {
      ghost var r0 := Registry(order, States());
      ghost var b0 := boxes;
      ghost var now := r0.states;
      var i := 0;
      while i < |outputs|
        invariant 0 <= i <= |outputs| && Valid()
        invariant Registry(order, now) == RegisterAll(r0, outputs[..i])
        invariant HoldsIn(boxes, now)
        invariant forall id :: id in b0 ==> id in boxes && boxes[id] == b0[id]
        invariant forall id :: id in boxes && id !in b0 ==> fresh(boxes[id])
        invariant forall b :: b in boxes.Values ==> b in b0.Values || fresh(b)
      {
        ghost var next := Register(Registry(order, now), outputs[i]);
        RegisterAllSnoc(r0, outputs, i);
        Locate(outputs[i], now);
        now := next.states;
        i := i + 1;
      }
      assert outputs[..i] == outputs;
    }

    /** The second loop of `update_bbox`: every box not seen drifts, in dictionary order. */
    method DriftUnseen(seen: set<int>, t: Vec, ghost states: map<int, BoxData>)
      requires Valid() && HoldsIn(boxes, states)
      modifies boxes.Values
      ensures HoldsIn(boxes, Drifted(states, seen, t))
    {
      ghost var now := states;
      var ids := order;
      OrderListsKeys(ids, boxes);
      var i := 0;
      while i < |ids|
        invariant 0 <= i <= |ids| && HoldsIn(boxes, now)
        invariant DriftedPrefix(ids, states, seen, t, now, i)
      {
        var id := ids[i];
        DriftedStep(ids, states, seen, t, now, i);
        if id !in seen {
          Drift(id, t, now);
          now := now[id := Shifted(now[id], t)];
        }
        i := i + 1;
      }
      DriftedDone(ids, states, seen, t, now);
    }

    /**
     * `update_bbox(outputs, translation)`: new ids get a fresh box at the end of the dictionary,
     * known ids take the new location, and with a translation the boxes not seen drift.
     */
    method UpdateBBox(outputs: seq<Output>, translation: Option<Vec>)
      requires Valid()
      modifies this`boxes, this`order, boxes.Values
      ensures Valid()
      ensures var r := Updated(Registry(old(order), old(States())), outputs, translation);
        order == r.order && HoldsIn(boxes, r.states)
      ensures forall id :: id in old(boxes) ==> id in boxes && boxes[id] == old(boxes)[id]
      ensures forall id :: id in boxes && id !in old(boxes) ==> fresh(boxes[id])
    {
      ghost var r := RegisterAll(Registry(order, States()), outputs);
      LocateAll(outputs);
      var seen := set k | 0 <= k < |outputs| :: outputs[k].trackId;
      if translation.Some? {
        DriftUnseen(seen, translation.value, r.states);
      }
    }

    /** The inner loop of `filter`: is the point in some box? Stops at the first box that holds it. */
    method InBox(x: real, y: real) returns (inBox: bool)
      requires Valid()
      ensures inBox == Blocked(order, States(), x, y)
    {
      ghost var states := States();
      inBox := false;
      var i := 0;
      while i < |order| && !inBox
        invariant 0 <= i <= |order|
        invariant inBox ==> Blocked(order[..i], states, x, y)
        invariant !inBox ==> !Blocked(order[..i], states, x, y)
      {
        var id := order[i];
        assert order[..i + 1][..i] == order[..i];
        assert id in boxes by { assert order[i] in order; }
        if boxes[id].Inside(x, y) {
          inBox := true;
        }
        i := i + 1;
      }
      if inBox {
        BlockedPrefix(order, i, states, x, y);
      } else {
        assert order[..i] == order;
      }
    }

    /** `_near_the_edge(x, y)`. */
    predicate NearTheEdge(x: int, y: int)
      reads this`width
    {
      NearEdge(width, x)
    }

    /** `filter(message_list)`: the candidates in no box and not at an edge, in order. */
    method Filter(messages: seq<Message>) returns (kept: seq<Message>)
      requires Valid()
      ensures kept == Passing(order, States(), width, messages)
    {
      kept := [];
      var i := 0;
      while i < |messages|
        invariant 0 <= i <= |messages|
        invariant kept == Passing(order, States(), width, messages[..i])
      {
        var m := messages[i];
        var inBox := InBox(m.x as real, m.y as real);
        assert messages[..i + 1][..i] == messages[..i];
        if !inBox && !NearTheEdge(m.x, m.y) {
          kept := kept + [m];
        }
        i := i + 1;
      }
      assert messages[..i] == messages;
    }

    /** The comprehension of `clear()`: the ids whose box is out of the screen, in order. */
    method ClearList() returns (ids: seq<int>)
      requires Valid()
      ensures ids == GoneIds(order, States())
    {
      ghost var states := States();
      ids := [];
      var i := 0;
      while i < |order|
        invariant 0 <= i <= |order|
        invariant ids == GoneIds(order[..i], states)
      {
        var id := order[i];
        assert order[..i + 1][..i] == order[..i];
        assert id in boxes by { assert order[i] in order; }
        if boxes[id].OutOfScreen() {
          ids := ids + [id];
        }
        i := i + 1;
      }
      assert order[..i] == order;
    }

    /** The `pop` loop of `clear()`: exactly the listed ids lose their boxes. */
    method DeleteAll(ids: seq<int>)
      modifies this`boxes
      ensures forall id :: id in boxes <==> id in old(boxes) && id !in ids
      ensures forall id :: id in boxes ==> boxes[id] == old(boxes)[id]
    {
      var i := 0;
      while i < |ids|
        invariant 0 <= i <= |ids|
        invariant forall id :: id in boxes <==> id in old(boxes) && id !in ids[..i]
        invariant forall id :: id in boxes ==> boxes[id] == old(boxes)[id]
      {
        assert ids[..i + 1] == ids[..i] + [ids[i]];
        boxes := boxes - {ids[i]};
        i := i + 1;
      }
      assert ids[..i] == ids;
    }

    /** `clear()`: removes exactly the boxes that are out of the screen; the others are untouched. */
    method Clear()
      requires Valid()
      modifies this`boxes, this`order
      ensures Valid()
      ensures forall id :: id in boxes <==> id in old(boxes) && !old(boxes)[id].OutOfScreen()
      ensures forall id :: id in boxes ==> boxes[id] == old(boxes)[id]
      ensures order == Restrict(old(order), boxes.Keys)
    {
      ghost var states := States();
      assert Distinct(order);
      var clearList := ClearList();
      DeleteAll(clearList);
      forall id ensures id in boxes <==> id in old(boxes) && !old(boxes)[id].OutOfScreen() {
        GoneIdsIff(old(order), states, id);
      }
      RestrictDistinct(order, boxes.Keys);
      order := Restrict(order, boxes.Keys);
    }
  }

  /** The first `i` ids of the order have drifted unless seen; the rest are as in `states`. */
  ghost predicate DriftedPrefix(order: seq<int>, states: map<int, BoxData>, seen: set<int>, t: Vec,
                                now: map<int, BoxData>, i: int)
  {
    && now.Keys == states.Keys
    && (forall j :: 0 <= j < |order| ==> order[j] in states)
    && (forall j :: 0 <= j < |order| ==>
          now[order[j]] == if order[j] !in seen && j < i then Shifted(states[order[j]], t) else states[order[j]])
  }

  /** One more id of the order visited by the drift loop. */
  lemma DriftedStep(order: seq<int>, states: map<int, BoxData>, seen: set<int>, t: Vec, now: map<int, BoxData>, i: int)
    requires Distinct(order) && DriftedPrefix(order, states, seen, t, now, i) && 0 <= i < |order|
    ensures var id := order[i];
      DriftedPrefix(order, states, seen, t, if id !in seen then now[id := Shifted(now[id], t)] else now, i + 1)
  {
  }

  /** When the whole order has been visited, every unseen box has drifted. */
  lemma DriftedDone(order: seq<int>, states: map<int, BoxData>, seen: set<int>, t: Vec, now: map<int, BoxData>)
    requires DriftedPrefix(order, states, seen, t, now, |order|) && forall id :: id in states ==> id in order
    ensures now == Drifted(states, seen, t)
  {
    forall id | id in states ensures now[id] == Drifted(states, seen, t)[id] {
      var j :| 0 <= j < |order| && order[j] == id;
    }
  }

  /** Every entry of a key order that lists the keys is a key. */
  lemma OrderListsKeys(order: seq<int>, m: map<int, BBox>)
    requires forall id :: id in m <==> id in order
    ensures forall j :: 0 <= j < |order| ==> order[j] in m
  {
    forall j | 0 <= j < |order| ensures order[j] in m {
      var id := order[j];
      assert id in order;
    }
  }

  /** A box found in a prefix of the order is found in the whole order. */
  lemma {:induction false} BlockedPrefix(order: seq<int>, i: int, states: map<int, BoxData>, x: real, y: real)
    requires 0 <= i <= |order| && Blocked(order[..i], states, x, y)
    ensures Blocked(order, states, x, y)
    decreases |order|
  {
    if i < |order| {
      var n := |order| - 1;
      assert order[..i] == order[..n][..i];
      BlockedPrefix(order[..n], i, states, x, y);
    } else {
      assert order[..i] == order;
    }
  }
}
