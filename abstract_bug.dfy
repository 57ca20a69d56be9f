/**
 * One large organism as seen by the neural tracker (big_microfauna/abstract_bug.py).
 *
 * An `AbstractBug` lives SURVIVAL_TIME frames from its creation and keeps, per frame, a box, a
 * detection flag and a blur value; per detection, a class vote, a cluster count and a centre
 * point that moves with the camera; and the trajectory snapshot taken at the last detection.
 * The centre points are NOT one per frame: they grow only on detections.
 *
 * `BugData` is the value of all mutable fields; `Updated` and `Expired` say what `Update` and
 * `Alive` do to it, and the lemmas after them state what the source promises about them.
 */
module LargeBug {
  import opened Common

  /** Frames a record is kept after its creation (AbstractBug.SURVIVAL_TIME). */
  const SURVIVAL_TIME: int := 200
  /** The screenshot is refreshed while the organism has at most this many detections. */
  const SCREENSHOT_SAVE_TIME: int := 30

  /** A screenshot: the part of frame `frameIndex` under `box`. The pixels are not modelled. */
  datatype Shot = Shot(frameIndex: int, box: Box)

  /** One entry of `cls_dict`: a class name (None for an unknown class code) and its votes. */
  datatype Tally = Tally(name: Option<Label>, count: int)

  /** The mutable state of a record. */
  datatype BugData = BugData(
    screenshot: Option<Shot>,
    bboxList: seq<Box>,
    detectionSequence: seq<int>,
    clsDict: seq<Tally>,
    bugNumsList: seq<Option<int>>,
    survivalTime: int,
    blurryList: seq<Option<int>>,
    centerPointList: seq<Point>,
    trajectoryList: seq<Point>)

  /** The state `AbstractBug.__init__` builds: nothing seen yet. */
  function NewBug(): BugData
  {
    BugData(None, [], [], [], [], SURVIVAL_TIME, [], [], [])
  }

  /** The centre `((x1 + x2) / 2, (y1 + y2) / 2)` of a box. */
  function Center(b: Box): Point
  {
    Point((b.x1 + b.x2) as real / 2.0, (b.y1 + b.y2) as real / 2.0)
  }

  /** `_update_translation`: with a translation every centre point is shifted and truncated. */
  function ShiftCenters(cs: seq<Point>, translation: Option<Vec>): seq<Point>
  {
    match translation
    case None => cs
    case Some(t) => ShiftAll(cs, t)
  }

  /** The number of votes `name` has. */
  function Votes(d: seq<Tally>, name: Option<Label>): int
  {
    if d == [] then 0
    else Votes(d[..|d| - 1], name) + (if d[|d| - 1].name == name then d[|d| - 1].count else 0)
  }

  /** All votes together. */
  function TotalVotes(d: seq<Tally>): int
  {
    if d == [] then 0 else TotalVotes(d[..|d| - 1]) + d[|d| - 1].count
  }

  /** No name has two entries. */
  predicate DistinctLabels(d: seq<Tally>)
  {
    forall i, j :: 0 <= i < j < |d| ==> d[i].name != d[j].name
  }

  /** The position of `name` in the class dictionary, if it has an entry. */
  function Find(d: seq<Tally>, name: Option<Label>): (r: Option<nat>)
    ensures r.Some? ==> r.value < |d| && d[r.value].name == name
    ensures r.None? ==> forall j :: 0 <= j < |d| ==> d[j].name != name
  {
    if d == [] then None
    else match Find(d[..|d| - 1], name)
      case Some(i) => Some(i)
      case None => if d[|d| - 1].name == name then Some(|d| - 1) else None
  }

  /** `if cls not in cls_dict: cls_dict[cls] = 0; cls_dict[cls] += 1`. */
  function Vote(d: seq<Tally>, name: Option<Label>): seq<Tally>
  {
    match Find(d, name)
    case Some(i) => d[i := Tally(name, d[i].count + 1)]
    case None => d + [Tally(name, 1)]
  }

  /**
   * `AbstractBug.update`: one frame. The centre points move with the camera first; a detection
   * then adds a box, a flag 1, a vote, a cluster count and a centre point, and re-takes the
   * trajectory; a miss repeats the last box and adds a flag 0. Both add one blur value.
   */
  function Updated(d: BugData, bbox: Option<Box>, cls: Option<Label>, blurry: Option<int>, bugNums: Option<int>,
                   translation: Option<Vec>): BugData
    requires bbox.Some? || d.bboxList != []
  {
    var centers := ShiftCenters(d.centerPointList, translation);
    match bbox
    case Some(b) =>
      var cs := centers + [Center(b)];
      d.(survivalTime := d.survivalTime - 1, blurryList := d.blurryList + [blurry],
         detectionSequence := d.detectionSequence + [1], bboxList := d.bboxList + [b],
         clsDict := Vote(d.clsDict, cls), bugNumsList := d.bugNumsList + [bugNums],
         centerPointList := cs, trajectoryList := cs)
    case None =>
      d.(survivalTime := d.survivalTime - 1, blurryList := d.blurryList + [blurry],
         centerPointList := centers,
         detectionSequence := d.detectionSequence + [0], bboxList := d.bboxList + [d.bboxList[|d.bboxList| - 1]])
  }

  /** Python's slice `s[:n]` for n >= 0. */
  function Take<T>(s: seq<T>, n: nat): (r: seq<T>)
    ensures |r| == if n <= |s| then n else |s|
    ensures r == s[..|r|]
  {
    if n <= |s| then s[..n] else s
  }

  /** What `alive()` leaves of an expired record: trailing misses cut, the lists cut to match. */
  function Expired(d: BugData): BugData
  {
    var ds := TrimTrailingZeros(d.detectionSequence);
    var n := |ds|;
    d.(detectionSequence := ds, bboxList := Take(d.bboxList, n), blurryList := Take(d.blurryList, n),
       centerPointList := Take(d.centerPointList, n), trajectoryList := Take(d.trajectoryList, n))
  }

  /** `math.ceil(a / b)` for a positive b. */
  function CeilDiv(a: int, b: int): (c: int)
    requires b > 0
    ensures b * (c - 1) < a <= b * c
  {
    -((-a) / b)
  }

  /** The sum of a list whose entries are all present. */
  function SumSome(s: seq<Option<int>>): int
    requires forall i :: 0 <= i < |s| ==> s[i].Some?
  {
    if s == [] then 0 else SumSome(s[..|s| - 1]) + s[|s| - 1].value
  }

  /**
   * `_bug_number()`: the ceiling of the mean cluster count. An empty list (ZeroDivisionError)
   * or an absent entry (the TypeError of `sum`) gives None.
   */
  function CeilMean(s: seq<Option<int>>): (r: Option<int>)
    ensures r.Some? <==> |s| > 0 && forall i :: 0 <= i < |s| ==> s[i].Some?
    ensures r.Some? ==> |s| * (r.value - 1) < SumSome(s) <= |s| * r.value
  {
    if |s| > 0 && forall i :: 0 <= i < |s| ==> s[i].Some? then Some(CeilDiv(SumSome(s), |s|)) else None
  }

  /**
   * The bookkeeping invariant of a record that has been updated at least once after a
   * detection: one box, flag and blur value per frame, one vote, cluster count and centre per
   * detection, a trajectory as long as the centre list, and distinct labels.
   */
  predicate ValidData(d: BugData)
  {
    && IsBits(d.detectionSequence)
    && |d.detectionSequence| > 0 && d.detectionSequence[0] == 1
    && |d.bboxList| == |d.detectionSequence| && |d.blurryList| == |d.detectionSequence|
    && |d.bugNumsList| == CountOnes(d.detectionSequence)
    && |d.centerPointList| == CountOnes(d.detectionSequence)
    && |d.trajectoryList| == |d.centerPointList|
    && TotalVotes(d.clsDict) == CountOnes(d.detectionSequence)
    && DistinctLabels(d.clsDict)
  }

  /** Changing the count of one entry changes its name's votes and the total by the difference. */
  lemma {:induction false} VotesUpdate(d: seq<Tally>, i: nat, c: int, other: Option<Label>)
    requires i < |d|
    ensures Votes(d[i := Tally(d[i].name, c)], other) == Votes(d, other) + (if d[i].name == other then c - d[i].count else 0)
    ensures TotalVotes(d[i := Tally(d[i].name, c)]) == TotalVotes(d) + c - d[i].count
  {
    var n := |d| - 1;
    var e := d[i := Tally(d[i].name, c)];
    if i < n {
      VotesUpdate(d[..n], i, c, other);
      assert e[..n] == d[..n][i := Tally(d[i].name, c)];
    } else {
      assert e[..n] == d[..n];
    }
  }

  /** A vote adds one to the voted name and leaves the others alone; names stay distinct. */
  lemma VoteCounts(d: seq<Tally>, name: Option<Label>, other: Option<Label>)
    requires DistinctLabels(d)
    ensures DistinctLabels(Vote(d, name))
    ensures Votes(Vote(d, name), other) == Votes(d, other) + (if other == name then 1 else 0)
    ensures TotalVotes(Vote(d, name)) == TotalVotes(d) + 1
  {
    match Find(d, name)
    case Some(i) =>
      VotesUpdate(d, i, d[i].count + 1, other);
    case None =>
      var r := d + [Tally(name, 1)];
      assert r[..|d|] == d;
  }

  /**
   * `cls()`: the label with the most votes; among labels with equally many votes, the one
   * inserted first (the sort is stable). The dictionary must not be empty (IndexError).
   */
  function Majority(d: seq<Tally>): (r: Option<Label>)
    requires |d| > 0
    ensures exists i :: (0 <= i < |d| && d[i].name == r &&
      (forall j :: 0 <= j < |d| ==> d[j].count <= d[i].count) &&
      (forall j :: 0 <= j < i ==> d[j].count < d[i].count))
  {
    d[FirstMax(d)].name
  }

  /** The index of the first entry with the most votes. */
  function FirstMax(d: seq<Tally>): (i: nat)
    requires |d| > 0
    ensures i < |d|
    ensures forall j :: 0 <= j < |d| ==> d[j].count <= d[i].count
    ensures forall j :: 0 <= j < i ==> d[j].count < d[i].count
  {
    if |d| == 1 then 0
    else
      var k := FirstMax(d[..|d| - 1]);
      if d[|d| - 1].count > d[k].count then |d| - 1 else k
  }

  /** `is_update_screenshot()`: the sum of the flags is at most SCREENSHOT_SAVE_TIME. */
  predicate ScreenshotDue(d: BugData)
  {
    Sum(d.detectionSequence) <= SCREENSHOT_SAVE_TIME
  }

  /** The sum read by `is_update_screenshot()` is, on 0/1 flags, the number of detections. */
  lemma ScreenshotRule(d: BugData)
    requires IsBits(d.detectionSequence)
    ensures ScreenshotDue(d) <==> CountOnes(d.detectionSequence) <= SCREENSHOT_SAVE_TIME
  {
    SumOfBits(d.detectionSequence);
  }

  /**
   * The first update of a new record (whatever its screenshot) must be a detection, and leaves
   * it consistent, with the detection's centre as its whole trajectory.
   */
  lemma FirstUpdate(n: BugData, b: Box, cls: Option<Label>, blurry: Option<int>, bugNums: Option<int>, translation: Option<Vec>)
    requires n == NewBug().(screenshot := n.screenshot)
    ensures ValidData(Updated(n, Some(b), cls, blurry, bugNums, translation))
    ensures Updated(n, Some(b), cls, blurry, bugNums, translation).trajectoryList == [Center(b)]
  {
    var d := BugData(n.screenshot, [b], [1], [Tally(cls, 1)], [bugNums], SURVIVAL_TIME - 1, [blurry], [Center(b)], [Center(b)]);
    FirstState(n, b, cls, blurry, bugNums, translation);
    assert CountOnes([1]) == 1 by { assert [1][..0] == []; }
    assert TotalVotes([Tally(cls, 1)]) == 1 by { assert [Tally(cls, 1)][..0] == []; }
    assert ValidData(d);
  }

  /** The state after the first update, written out. */
  lemma FirstState(n: BugData, b: Box, cls: Option<Label>, blurry: Option<int>, bugNums: Option<int>, translation: Option<Vec>)
    requires n == NewBug().(screenshot := n.screenshot)
    ensures Updated(n, Some(b), cls, blurry, bugNums, translation) ==
      BugData(n.screenshot, [b], [1], [Tally(cls, 1)], [bugNums], SURVIVAL_TIME - 1, [blurry], [Center(b)], [Center(b)])
  {
    var u := Updated(n, Some(b), cls, blurry, bugNums, translation);
    assert n.centerPointList == [] && ShiftCenters([], translation) == [];
    assert u.centerPointList == [Center(b)];
    assert u.clsDict == [Tally(cls, 1)] by { assert Find([], cls) == None; }
  }

  /**
   * Every update costs one frame of life and adds exactly one box, one flag and one blur
   * value. Votes, cluster counts and centres grow only on a detection; the new centre comes
   * after the shift of the old ones, and the trajectory is then the centre list.
   */
  lemma UpdatedBookkeeping(d: BugData, bbox: Option<Box>, cls: Option<Label>, blurry: Option<int>, bugNums: Option<int>,
                           translation: Option<Vec>)
    requires bbox.Some? || d.bboxList != []
    ensures var r := Updated(d, bbox, cls, blurry, bugNums, translation);
      && r.survivalTime == d.survivalTime - 1
      && r.blurryList == d.blurryList + [blurry]
      && r.detectionSequence == d.detectionSequence + [if bbox.Some? then 1 else 0]
      && |r.bboxList| == |d.bboxList| + 1
      && (bbox.None? ==> r.clsDict == d.clsDict && r.bugNumsList == d.bugNumsList
                         && r.centerPointList == ShiftCenters(d.centerPointList, translation)
                         && r.trajectoryList == d.trajectoryList
                         && r.bboxList[|d.bboxList|] == d.bboxList[|d.bboxList| - 1])
      && (bbox.Some? ==> r.centerPointList == ShiftCenters(d.centerPointList, translation) + [Center(bbox.value)]
                         && r.trajectoryList == r.centerPointList
                         && r.bboxList == d.bboxList + [bbox.value])
  {
  }

  /** `update` keeps the bookkeeping invariant. */
  lemma UpdatedValid(d: BugData, bbox: Option<Box>, cls: Option<Label>, blurry: Option<int>, bugNums: Option<int>,
                     translation: Option<Vec>)
    requires ValidData(d)
    ensures ValidData(Updated(d, bbox, cls, blurry, bugNums, translation))
  {
    var b := if bbox.Some? then 1 else 0;
    CountOnesAppend(d.detectionSequence, b);
    var s := d.detectionSequence + [b];
    assert s[..|s| - 1] == d.detectionSequence;
    if bbox.Some? {
      VoteCounts(d.clsDict, cls, cls);
    }
  }

  /**
   * An expired record ends in a detection and keeps all of them; its boxes, blur values, centres
   * and trajectory are cut to the new length, which leaves the centres and the trajectory whole.
   */
  lemma ExpiredBookkeeping(d: BugData)
    requires ValidData(d)
    ensures var e := Expired(d);
      && |e.detectionSequence| > 0 && e.detectionSequence[|e.detectionSequence| - 1] == 1
      && CountOnes(e.detectionSequence) == CountOnes(d.detectionSequence)
      && |e.bboxList| == |e.blurryList| == |e.detectionSequence|
      && e.centerPointList == d.centerPointList && e.trajectoryList == d.trajectoryList
      && e.bboxList == d.bboxList[..|e.detectionSequence|]
  {
    var s := d.detectionSequence;
    TrimKeepsOnes(s);
    TrimEndsInDetection(s);
    CountOnesPrefix(s, |TrimTrailingZeros(s)|);
    var e := TrimTrailingZeros(s);
    assert s[..|e|] == e;
    assert CountOnes(e) <= |e|;
  }

  /** Worked example: votes Mo, Do, Do, Mo tie at two; Mo was inserted first and wins. */
  lemma ClsTieExample()
    ensures Majority(Vote(Vote(Vote(Vote([], Some(Mo)), Some(Do)), Some(Do)), Some(Mo))) == Some(Mo)
  {
    var d1 := Vote([], Some(Mo));
    assert Find([], Some(Mo)) == None;
    assert d1 == [Tally(Some(Mo), 1)];
    assert Find(d1, Some(Do)) == None by { assert d1[..0] == []; }
    var d2 := Vote(d1, Some(Do));
    assert d2 == [Tally(Some(Mo), 1), Tally(Some(Do), 1)];
    assert Find(d2, Some(Do)) == Some(1) by { assert d2[..1] == d1; }
    var d3 := Vote(d2, Some(Do));
    assert d3 == [Tally(Some(Mo), 1), Tally(Some(Do), 2)];
    assert Find(d3, Some(Mo)) == Some(0) by { assert d3[..1] == d1; }
    var d := Vote(d3, Some(Mo));
    assert d == [Tally(Some(Mo), 2), Tally(Some(Do), 2)];
    assert FirstMax(d) == 0 by { assert d[..1] == [Tally(Some(Mo), 2)]; }
  }

  /** A large organism record (big_microfauna/abstract_bug.py, class AbstractBug). */
  class AbstractBug {
    const trackId: int
    const firstFrame: int
    var screenshot: Option<Shot>
    var bboxList: seq<Box>
    var detectionSequence: seq<int>
    var clsDict: seq<Tally>
    var bugNumsList: seq<Option<int>>
    var survivalTime: int
    var blurryList: seq<Option<int>>
    var centerPointList: seq<Point>
    var trajectoryList: seq<Point>

    function Data(): BugData
      reads this
    {
      BugData(screenshot, bboxList, detectionSequence, clsDict, bugNumsList, survivalTime, blurryList,
              centerPointList, trajectoryList)
    }

    /** `AbstractBug.__init__(frame_index, track_id)`. */
    constructor (frameIndex: int, id: int)
      ensures trackId == id && firstFrame == frameIndex && Data() == NewBug()
    {
      trackId, firstFrame := id, frameIndex;
      screenshot, bboxList, detectionSequence, clsDict := None, [], [], [];
      bugNumsList, survivalTime, blurryList, centerPointList, trajectoryList := [], SURVIVAL_TIME, [], [], [];
    }

    /** `_update_translation`: shifts every centre point in place when a translation is given. */
    method UpdateTranslation(translation: Option<Vec>)
      modifies this
      ensures Data() == old(Data()).(centerPointList := ShiftCenters(old(centerPointList), translation))
    {
      if translation.Some? {
        var t := translation.value;
        var i := 0;
        while i < |centerPointList|
          invariant 0 <= i <= |centerPointList| == |old(centerPointList)|
          invariant forall k :: 0 <= k < i ==> centerPointList[k] == ShiftTrunc(old(centerPointList)[k], t)
          invariant forall k :: i <= k < |centerPointList| ==> centerPointList[k] == old(centerPointList)[k]
          invariant Data() == old(Data()).(centerPointList := centerPointList)
        {
          centerPointList := centerPointList[i := ShiftTrunc(centerPointList[i], t)];
          i := i + 1;
        }
      }
    }

    /** `update(bbox, cls, blurry, bug_nums, translation)`; a miss repeats the last box, so it needs one. */
    method Update(bbox: Option<Box>, cls: Option<Label>, blurry: Option<int>, bugNums: Option<int>, translation: Option<Vec>)
      requires bbox.Some? || bboxList != []
      modifies this
      ensures Data() == Updated(old(Data()), bbox, cls, blurry, bugNums, translation)
    {
      survivalTime := survivalTime - 1;
      blurryList := blurryList + [blurry];
      UpdateTranslation(translation);
      if bbox.Some? {
        var b := bbox.value;
        detectionSequence := detectionSequence + [1];
        bboxList := bboxList + [b];
        clsDict := Vote(clsDict, cls);
        bugNumsList := bugNumsList + [bugNums];
        centerPointList := centerPointList + [Center(b)];
        trajectoryList := centerPointList;
      } else {
        detectionSequence := detectionSequence + [0];
        bboxList := bboxList + [bboxList[|bboxList| - 1]];
      }
    }

    /** `is_update_screenshot()`: the sum of the flags is at most SCREENSHOT_SAVE_TIME. */
    function IsUpdateScreenshot(): bool
      reads this
    {
      ScreenshotDue(Data())
    }

    /** `update_screenshot(screenshot)`. */
    method UpdateScreenshot(shot: Shot)
      modifies this
      ensures Data() == old(Data()).(screenshot := Some(shot))
    {
      screenshot := Some(shot);
    }

    /**
     * `alive()`: the countdown has not run out. An expired record first loses its trailing
     * misses; the pop loop needs a detection to stop at (IndexError otherwise).
     */
    method Alive() returns (isAlive: bool)
      requires survivalTime > 0 || TrimTrailingZeros(detectionSequence) != []
      modifies this
      ensures isAlive <==> old(survivalTime) > 0
      ensures Data() == if isAlive then old(Data()) else Expired(old(Data()))
    {
      isAlive := survivalTime > 0;
      if !isAlive {
        while detectionSequence[|detectionSequence| - 1] == 0
          invariant detectionSequence != []
          invariant TrimTrailingZeros(detectionSequence) == TrimTrailingZeros(old(detectionSequence))
          invariant Data() == old(Data()).(detectionSequence := detectionSequence)
          decreases |detectionSequence|
        {
          detectionSequence := detectionSequence[..|detectionSequence| - 1];
        }
        var length := |detectionSequence|;
        bboxList := Take(bboxList, length);
        blurryList := Take(blurryList, length);
        centerPointList := Take(centerPointList, length);
        trajectoryList := Take(trajectoryList, length);
      }
    }

    /** `cls()` of this record. */
    function Cls(): Option<Label>
      reads this
      requires |clsDict| > 0
    {
      Majority(clsDict)
    }

    /** `_bug_number()` of this record. */
    function BugNumber(): Option<int>
      reads this
    {
      CeilMean(bugNumsList)
    }
  }
}
