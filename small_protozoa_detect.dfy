/**
 * The pure helpers and the control flow of small_protozoa/small_protozoa_detect.py: the
 * clustering of the frame-difference boxes, the screen-noise test, and the early exits of
 * `FrameDifferDetector.detect`.
 *
 * Square roots are avoided: `sqrt(d2) <= r` is written `d2 <= r * r`, the same test for a
 * non-negative radius. Box centres are halves of integer sums, so the clustering test is
 * taken on the doubled centres.
 */
module SmallDetect {
  import opened Common

  /** `cluster`'s default `threshold`. */
  const CLUSTER_THRESHOLD: int := 50

  /** The last element of a non-empty list (what `pop()` takes). */
  function Last<T>(s: seq<T>): T
    requires |s| > 0
  {
    s[|s| - 1]
  }

  function MinInt(a: int, b: int): int
  {
    if a <= b then a else b
  }

  function MaxInt(a: int, b: int): int
  {
    if a >= b then a else b
  }

  /** The distance of the two box centres is at most the threshold. */
  predicate Near(seed: Box, b: Box)
  {
    var dx, dy := (seed.x1 + seed.x2) - (b.x1 + b.x2), (seed.y1 + seed.y2) - (b.y1 + b.y2);
    dx * dx + dy * dy <= (2 * CLUSTER_THRESHOLD) * (2 * CLUSTER_THRESHOLD)
  }

  /** `hull` covers `b`. */
  predicate Encloses(hull: Box, b: Box)
  {
    hull.x1 <= b.x1 && hull.y1 <= b.y1 && b.x2 <= hull.x2 && b.y2 <= hull.y2
  }

  /** The bounds widened by a merged box: `min` of the left and top, `max` of the right and bottom. */
  function Widen(hull: Box, b: Box): (r: Box)
    ensures Encloses(r, b)
    ensures forall c :: Encloses(hull, c) ==> Encloses(r, c)
  {
    Box(MinInt(hull.x1, b.x1), MinInt(hull.y1, b.y1), MaxInt(hull.x2, b.x2), MaxInt(hull.y2, b.y2))
  }

  /** One output box of `cluster`, with the input boxes that went into it (the seed first). */
  datatype Group = Group(hull: Box, members: seq<Box>)

  /** The hull encloses every member, and every member but the seed is near the seed. */
  predicate Coherent(g: Group)
  {
    && |g.members| > 0
    && (forall k :: 0 <= k < |g.members| ==> Encloses(g.hull, g.members[k]))
    && (forall k :: 0 < k < |g.members| ==> Near(g.members[0], g.members[k]))
  }

  /** The state of the inner loop of `cluster`: the growing group and the boxes kept for later. */
  datatype Sweep = Sweep(group: Group, kept: seq<Box>)

  /**
   * The inner loop of `cluster`: pop boxes from the end of `rest`; one near the seed widens
   * the bounds, any other is kept (in popping order) for the next round. Only the seed is
   * compared against, so merging is not transitive.
   */
  function SweepFrom(seed: Box, group: Group, rest: seq<Box>, kept: seq<Box>): (r: Sweep)
    ensures |r.kept| <= |kept| + |rest|
    decreases |rest|
  {
    if rest == [] then Sweep(group, kept)
    else
      var b := Last(rest);
      if Near(seed, b) then SweepFrom(seed, Group(Widen(group.hull, b), group.members + [b]), rest[..|rest| - 1], kept)
      else SweepFrom(seed, group, rest[..|rest| - 1], kept + [b])
  }

  /** A round loses no box and invents none: each one is merged or kept. */
  lemma {:induction false} SweepKeepsBoxes(seed: Box, group: Group, rest: seq<Box>, kept: seq<Box>)
    ensures var r := SweepFrom(seed, group, rest, kept);
      multiset(r.group.members) + multiset(r.kept) == multiset(group.members) + multiset(rest) + multiset(kept)
    decreases |rest|
  {
    if rest != [] {
      var b := Last(rest);
      var front := rest[..|rest| - 1];
      assert rest == front + [b];
      if Near(seed, b) {
        SweepKeepsBoxes(seed, Group(Widen(group.hull, b), group.members + [b]), front, kept);
      } else {
        SweepKeepsBoxes(seed, group, front, kept + [b]);
      }
    }
  }

  /** A round keeps its group coherent: the bounds only widen, and only boxes near the seed join. */
  lemma {:induction false} SweepCoherent(seed: Box, group: Group, rest: seq<Box>, kept: seq<Box>)
    requires Coherent(group) && group.members[0] == seed
    ensures Coherent(SweepFrom(seed, group, rest, kept).group) && SweepFrom(seed, group, rest, kept).group.members[0] == seed
    decreases |rest|
  {
    if rest != [] {
      var b := Last(rest);
      if Near(seed, b) {
        var g := Group(Widen(group.hull, b), group.members + [b]);
        assert forall k :: 0 <= k < |group.members| ==> g.members[k] == group.members[k];
        SweepCoherent(seed, g, rest[..|rest| - 1], kept);
      } else {
        SweepCoherent(seed, group, rest[..|rest| - 1], kept + [b]);
      }
    }
  }

  /** `cluster(location_list)` as groups: each round takes the last box as the seed. */
  function Groups(boxes: seq<Box>): (r: seq<Group>)
    ensures |r| <= |boxes|
    ensures r == [] <==> boxes == []
    decreases |boxes|
  {
    if boxes == [] then []
    else
      var seed := Last(boxes);
      var s := SweepFrom(seed, Group(seed, [seed]), boxes[..|boxes| - 1], []);
      [s.group] + Groups(s.kept)
  }

  /** The boxes of the groups, in order. */
  function Hulls(gs: seq<Group>): (r: seq<Box>)
    ensures |r| == |gs|
  {
    if gs == [] then [] else [gs[0].hull] + Hulls(gs[1..])
  }

  /** All members of all groups. */
  function Members(gs: seq<Group>): seq<Box>
  {
    if gs == [] then [] else gs[0].members + Members(gs[1..])
  }

  /**
   * Every input box goes into exactly one output box: the members of the groups are the
   * input boxes, each as often as it occurs.
   */
  lemma {:induction false} GroupsPartition(boxes: seq<Box>)
    ensures multiset(Members(Groups(boxes))) == multiset(boxes)
    decreases |boxes|
  {
    if boxes != [] {
      var seed := Last(boxes);
      var prefix := boxes[..|boxes| - 1];
      var s := SweepFrom(seed, Group(seed, [seed]), prefix, []);
      GroupsPartition(s.kept);
      MembersUnfold(boxes);
      SweepKeepsBoxes(seed, Group(seed, [seed]), prefix, []);
      assert boxes == prefix + [seed];
    }
  }

  /** The members of a clustering are those of its first round and those of the rest. */
  lemma MembersUnfold(boxes: seq<Box>)
    requires boxes != []
    ensures var s := SweepFrom(Last(boxes), Group(Last(boxes), [Last(boxes)]), boxes[..|boxes| - 1], []);
      multiset(Members(Groups(boxes))) == multiset(s.group.members) + multiset(Members(Groups(s.kept)))
  {
    var s := SweepFrom(Last(boxes), Group(Last(boxes), [Last(boxes)]), boxes[..|boxes| - 1], []);
    var gs := [s.group] + Groups(s.kept);
    assert Groups(boxes) == gs;
    assert gs[1..] == Groups(s.kept);
    assert Members(gs) == s.group.members + Members(Groups(s.kept));
  }

  /** Every output box encloses its members, and every member was near its seed. */
  lemma {:induction false} GroupsCoherent(boxes: seq<Box>)
    ensures forall k :: 0 <= k < |Groups(boxes)| ==> Coherent(Groups(boxes)[k])
    decreases |boxes|
  {
    if boxes != [] {
      var seed := Last(boxes);
      var s := SweepFrom(seed, Group(seed, [seed]), boxes[..|boxes| - 1], []);
      SweepCoherent(seed, Group(seed, [seed]), boxes[..|boxes| - 1], []);
      GroupsCoherent(s.kept);
      var gs := [s.group] + Groups(s.kept);
      assert forall k :: 1 <= k < |gs| ==> gs[k] == Groups(s.kept)[k - 1];
    }
  }

  /** Every input box lies inside some output box. */
  lemma EveryBoxCovered(boxes: seq<Box>, b: Box)
    requires b in boxes
    ensures exists k :: 0 <= k < |Groups(boxes)| && Encloses(Groups(boxes)[k].hull, b)
  {
    GroupsPartition(boxes);
    GroupsCoherent(boxes);
    assert b in multiset(Members(Groups(boxes)));
    MemberInSomeGroup(Groups(boxes), b);
  }

  lemma {:induction false} MemberInSomeGroup(gs: seq<Group>, b: Box)
    requires b in Members(gs)
    ensures exists k, j :: 0 <= k < |gs| && 0 <= j < |gs[k].members| && gs[k].members[j] == b
  {
    if b in gs[0].members {
      var j :| 0 <= j < |gs[0].members| && gs[0].members[j] == b;
      assert gs[0].members[j] == b;
    } else {
      MemberInSomeGroup(gs[1..], b);
      var k, j :| 0 <= k < |gs[1..]| && 0 <= j < |gs[1..][k].members| && gs[1..][k].members[j] == b;
      assert gs[k + 1].members[j] == b;
    }
  }

  /** One round of `cluster`: the inner loop, with the bounds of the seed widened in place. */
  method Gather(seed: Box, rest: seq<Box>) returns (hull: Box, kept: seq<Box>)
    ensures var s := SweepFrom(seed, Group(seed, [seed]), rest, []); hull == s.group.hull && kept == s.kept
  {
    var list := rest;
    var left, top, right, bottom := seed.x1, seed.y1, seed.x2, seed.y2;
    kept := [];
    ghost var members := [seed];
    ghost var target := SweepFrom(seed, Group(seed, [seed]), rest, []);
    while |list| > 0
      invariant SweepFrom(seed, Group(Box(left, top, right, bottom), members), list, kept) == target
      decreases |list|
    {
      var b := list[|list| - 1];
      list := list[..|list| - 1];
      if Near(seed, b) {
        left, right := MinInt(left, b.x1), MaxInt(right, b.x2);
        top, bottom := MinInt(top, b.y1), MaxInt(bottom, b.y2);
        members := members + [b];
      } else {
        kept := kept + [b];
      }
    }
    hull := Box(left, top, right, bottom);
  }

  /** One round of `cluster` puts its box in front of the boxes of the later rounds. */
  lemma RoundHulls(boxes: seq<Box>, done: seq<Box>)
    requires boxes != []
    ensures var s := SweepFrom(Last(boxes), Group(Last(boxes), [Last(boxes)]), boxes[..|boxes| - 1], []);
      done + Hulls(Groups(boxes)) == (done + [s.group.hull]) + Hulls(Groups(s.kept))
  {
    var s := SweepFrom(Last(boxes), Group(Last(boxes), [Last(boxes)]), boxes[..|boxes| - 1], []);
    var gs := [s.group] + Groups(s.kept);
    assert Groups(boxes) == gs;
    assert gs[1..] == Groups(s.kept);
    var h := Hulls(Groups(s.kept));
    assert Hulls(gs) == [s.group.hull] + h;
    assert done + ([s.group.hull] + h) == (done + [s.group.hull]) + h;
  }

  /** `cluster(location_list, threshold=50)` as the nested loops it is. */
  method Cluster(locations: seq<Box>) returns (result: seq<Box>)
    ensures result == Hulls(Groups(locations))
  {
    result := [];
    var list := locations;
    while |list| > 0
      invariant Hulls(Groups(locations)) == result + Hulls(Groups(list))
      decreases |list|
    {
      var seed := list[|list| - 1];
      var hull, kept := Gather(seed, list[..|list| - 1]);
      RoundHulls(list, result);
      list := kept;
      result := result + [hull];
    }
  }

  /**
   * Merging is not transitive: with the seed A, a box B within the threshold joins, but a
   * box C within the threshold of B and not of A starts a group of its own.
   */
  lemma ClusterNotTransitive()
    ensures var a, b, c := Box(0, 0, 10, 10), Box(40, 0, 50, 10), Box(80, 0, 90, 10);
      Near(b, c) && !Near(a, c) && Hulls(Groups([c, b, a])) == [Box(0, 0, 50, 10), c]
  {
    var a, b, c := Box(0, 0, 10, 10), Box(40, 0, 50, 10), Box(80, 0, 90, 10);
    FirstRoundOfExample();
    assert [c, b, a][..2] == [c, b];
    assert Groups([c, b, a]) == [Group(Box(0, 0, 50, 10), [a, b])] + Groups([c]);
    assert SweepFrom(c, Group(c, [c]), [], []) == Sweep(Group(c, [c]), []);
    assert Groups([c]) == [Group(c, [c])];
  }

  /** The first round of the example: the seed A takes B and leaves C. */
  lemma FirstRoundOfExample()
    ensures var a, b, c := Box(0, 0, 10, 10), Box(40, 0, 50, 10), Box(80, 0, 90, 10);
      SweepFrom(a, Group(a, [a]), [c, b], []) == Sweep(Group(Box(0, 0, 50, 10), [a, b]), [c])
  {
    var a, b, c := Box(0, 0, 10, 10), Box(40, 0, 50, 10), Box(80, 0, 90, 10);
    var g := Group(Box(0, 0, 50, 10), [a, b]);
    assert [c, b][..1] == [c] && [c][..0] == [];
    assert Widen(a, b) == g.hull && Near(a, b) && [a] + [b] == g.members;
    assert SweepFrom(a, g, [c], []) == Sweep(g, [c]);
  }

  /** A screen noise point `(x, y, r)`. */
  datatype Noise = Noise(x: int, y: int, r: int)

  /** `FrameDifferDetector.NOISY_LIST`. */
  const NOISY_LIST: seq<Noise> := [
    Noise(912, 608, 150), Noise(1132, 718, 50), Noise(800, 80, 50), Noise(510, 1080, 50),
    Noise(1650, 560, 50), Noise(1400, 1130, 100), Noise(96, 366, 50), Noise(294, 33, 50),
    Noise(381, 218, 50), Noise(1368, 718, 50), Noise(1518, 905, 50), Noise(1575, 1052, 50),
    Noise(1666, 487, 50), Noise(1612, 85, 50), Noise(1195, 970, 50), Noise(1378, 670, 50)]

  /** The point is within the radius of the noise point. */
  predicate WithinNoise(p: Point, n: Noise)
  {
    var dx, dy := p.x - n.x as real, p.y - n.y as real;
    dx * dx + dy * dy <= (n.r * n.r) as real
  }

  /** The point is near some screen noise point. */
  predicate Noisy(p: Point)
  {
    exists k :: 0 <= k < |NOISY_LIST| && WithinNoise(p, NOISY_LIST[k])
  }

  /** `filter_screen_noisy(center_point)`: scan the noise list, stopping at the first near one. */
  method FilterScreenNoisy(p: Point) returns (nearNoisyPoint: bool)
    ensures nearNoisyPoint <==> Noisy(p)
  {
    nearNoisyPoint := false;
    var k := 0;
    while k < |NOISY_LIST|
      invariant 0 <= k <= |NOISY_LIST|
      invariant forall j :: 0 <= j < k ==> !WithinNoise(p, NOISY_LIST[j])
    {
      if WithinNoise(p, NOISY_LIST[k]) {
        nearNoisyPoint := true;
        return;
      }
      k := k + 1;
    }
  }

  /** A noise centre is noisy; the top-left corner of the screen is not. */
  lemma NoisyExamples()
    ensures Noisy(Point(912.0, 608.0))
    ensures !Noisy(Point(0.0, 0.0))
  {
    assert WithinNoise(Point(912.0, 608.0), NOISY_LIST[0]);
  }

  /** A video frame: only its identity and its size matter here. */
  datatype Frame = Frame(id: int, width: int, height: int)

  /**
   * What `detect` asks of the large-box filter: on the first frame, set the screen size and
   * register the outputs; on a blurry frame or a failed translation, register them; on a
   * frame that is processed, register them and let the boxes not seen drift.
   */
  datatype FilterCall = SizeAndLocate(width: int, height: int) | Locate | LocateAndDrift(t: Vec)

  /**
   * The course of one `detect` call: the filter call, whether the frame difference, the
   * filter and the tracker run (otherwise the clear list and the display list returned are
   * empty), and the translation returned.
   */
  datatype Plan = Plan(filterCall: FilterCall, tracked: bool, translation: Option<Vec>)

  /**
   * `detect(blurry, frame_index, frame, outputs)` given the previous frame and what
   * `calc_translation` would give (None for an empty translation): the first frame, a blurry
   * frame and a failed translation return early.
   */
  function DetectPlan(perFrame: Option<Frame>, blurry: bool, frame: Frame, translation: Option<Vec>): (p: Plan)
    ensures p.tracked <==> perFrame.Some? && !blurry && translation.Some?
    ensures !p.tracked ==> p.translation == None && !p.filterCall.LocateAndDrift?
    ensures p.tracked ==> p.translation == translation && p.filterCall == LocateAndDrift(translation.value)
  {
    if perFrame.None? then Plan(SizeAndLocate(frame.width, frame.height), false, None)
    else if blurry then Plan(Locate, false, None)
    else if translation.None? then Plan(Locate, false, None)
    else Plan(LocateAndDrift(translation.value), true, translation)
  }

  /** One `detect` call's arguments, with what `calc_translation` would give. */
  datatype Call = Call(blurry: bool, frame: Frame, translation: Option<Vec>)

  /** The plans of a run of `detect` calls, from the given previous frame. */
  function Plans(perFrame: Option<Frame>, calls: seq<Call>): (r: seq<Plan>)
    ensures |r| == |calls|
    decreases |calls|
  {
    if calls == [] then []
    else [DetectPlan(perFrame, calls[0].blurry, calls[0].frame, calls[0].translation)] + Plans(Some(calls[0].frame), calls[1..])
  }

  /**
   * The screen size is taken once: on the first call of a fresh detector, and never after,
   * whatever the later frames are.
   */
  lemma {:induction false} SizeTakenOnce(perFrame: Option<Frame>, calls: seq<Call>)
    ensures forall k :: 0 <= k < |calls| ==> (Plans(perFrame, calls)[k].filterCall.SizeAndLocate? <==> k == 0 && perFrame.None?)
    decreases |calls|
  {
    if calls != [] {
      SizeTakenOnce(Some(calls[0].frame), calls[1..]);
      var r := Plans(perFrame, calls);
      assert forall k :: 1 <= k < |calls| ==> r[k] == Plans(Some(calls[0].frame), calls[1..])[k - 1];
    }
  }

  /** `FrameDifferDetector`: the previous frame it keeps. */
  class FrameDifferDetector {
    var perFrame: Option<Frame>

    constructor ()
      ensures perFrame == None
    {
      perFrame := None;
    }

    /** `detect`: every path keeps the current frame as the previous one. */
    method Detect(blurry: bool, frame: Frame, translation: Option<Vec>) returns (plan: Plan)
      modifies this
      ensures perFrame == Some(frame)
      ensures plan == DetectPlan(old(perFrame), blurry, frame, translation)
    {
      if perFrame.None? {
        perFrame := Some(frame);
        return Plan(SizeAndLocate(frame.width, frame.height), false, None);
      }
      if blurry {
        perFrame := Some(frame);
        return Plan(Locate, false, None);
      }
      if translation.None? {
        perFrame := Some(frame);
        return Plan(Locate, false, None);
      }
      plan := Plan(LocateAndDrift(translation.value), true, translation);
      perFrame := Some(frame);
    }
  }
}
