/**
 * One small organism followed by the frame-difference tracker (small_protozoa/track.py).
 *
 * A `Track` keeps a survival countdown, a missing counter capped at MISSING_THRESHOLD, the
 * reference point used for matching, and parallel histories: the detection sequence (1 for a
 * matched frame, 0 for a miss), the display trajectory (one point per frame, shifted with the
 * camera), the areas and real points of the matched frames, and the trajectory snapshot
 * taken at the last match.
 *
 * `TrackData` is the value of all mutable fields; `Step` and `Expired` say what `Update` and
 * `Dead` do to it, and the lemmas after them state what the source promises about those steps.
 */
module SmallTrack {
  import opened Common
  import Kinematics

  /** Frames a track is kept after its creation (Track.SERVAL_TIME). */
  const SERVAL_TIME: int := 100
  /** A track missed this many frames in a row is no longer matched (Track.MISSING_THRESHOLD). */
  const MISSING_THRESHOLD: int := 15

  /** The mutable state of a track. */
  datatype TrackData = TrackData(
    servalTime: int,
    missingCounter: int,
    basePoint: Point,
    areaList: seq<int>,
    detectionSequence: seq<int>,
    realPointList: seq<Point>,
    trajectoryList: seq<Point>,
    displayTrajectoryList: seq<Point>)

  /** The vertical extent used by the realness test; +infinity when it is not defined. */
  datatype Span = Finite(value: real) | Infinite

  function PointOf(m: Message): Point
  {
    Point(m.x as real, m.y as real)
  }

  /**
   * The bookkeeping invariant of a track: 0/1 flags starting with the first detection, one
   * display point per frame, one area and one real point per detection, a trajectory as long
   * as the history up to the last detection, and a missing counter within its cap.
   */
  predicate ValidData(d: TrackData)
  {
    && IsBits(d.detectionSequence)
    && |d.detectionSequence| > 0 && d.detectionSequence[0] == 1
    && |d.displayTrajectoryList| == |d.detectionSequence|
    && CountOnes(d.detectionSequence) > 0
    && |d.areaList| == CountOnes(d.detectionSequence)
    && |d.realPointList| == CountOnes(d.detectionSequence)
    && |d.trajectoryList| == |TrimTrailingZeros(d.detectionSequence)|
    && 0 <= d.missingCounter <= MISSING_THRESHOLD
  }

  /** The state `Track.__init__` builds from the first detection. */
  function Initial(m: Message): TrackData
  {
    var p := PointOf(m);
    TrackData(SERVAL_TIME, 0, p, [m.area], [1], [p], [p], [p])
  }

  /** `update_display_queue`: with a translation every display point is shifted and truncated. */
  function ShiftDisplay(ds: seq<Point>, translation: Option<Vec>): seq<Point>
  {
    match translation
    case None => ds
    case Some(t) => ShiftAll(ds, t)
  }

  /**
   * `Track.update`: one frame of a track, matched to `message` or missed. A miss reads
   * `translation[0]` while the missing counter is below the cap, so it needs a translation then.
   */
  function Step(d: TrackData, message: Option<Message>, translation: Option<Vec>): TrackData
    requires message.Some? || translation.Some? || d.missingCounter >= MISSING_THRESHOLD
  {
    var shown := ShiftDisplay(d.displayTrajectoryList, translation);
    match message
    case Some(m) =>
      var p := PointOf(m);
      TrackData(d.servalTime - 1, 0, p, d.areaList + [m.area], d.detectionSequence + [1],
                d.realPointList + [p], shown + [p], shown + [p])
    case None =>
      var moves := d.missingCounter < MISSING_THRESHOLD;
      var base := if moves then ShiftTrunc(d.basePoint, translation.value) else d.basePoint;
      var missing := if moves then d.missingCounter + 1 else d.missingCounter;
      TrackData(d.servalTime - 1, missing, base, d.areaList, d.detectionSequence + [0],
                d.realPointList, d.trajectoryList, shown + [base])
  }

  /** What `dead()` leaves of an expired track: trailing misses cut from every history. */
  function Expired(d: TrackData): TrackData
  {
    var ds := TrimTrailingZeros(d.detectionSequence);
    var n := |ds|;
    d.(detectionSequence := ds,
       trajectoryList := if n <= |d.trajectoryList| then d.trajectoryList[..n] else d.trajectoryList,
       displayTrajectoryList := if n <= |d.displayTrajectoryList| then d.displayTrajectoryList[..n] else d.displayTrajectoryList)
  }

  /** `span()`: max - min of the y values of the display trajectory without its last point. */
  function SpanOf(display: seq<Point>): (s: Span)
    ensures s.Infinite? <==> |display| <= 2
    ensures s.Finite? ==> s.value >= 0.0
  {
    if |display| <= 2 then Infinite
    else
      var ys := display[..|display| - 1];
      Finite(MaxY(ys) - MinY(ys))
  }

  function MaxY(ps: seq<Point>): (m: real)
    requires |ps| > 0
    ensures forall i :: 0 <= i < |ps| ==> ps[i].y <= m
    ensures exists i :: 0 <= i < |ps| && ps[i].y == m
  {
    if |ps| == 1 then ps[0].y
    else var m := MaxY(ps[..|ps| - 1]); if ps[|ps| - 1].y > m then ps[|ps| - 1].y else m
  }

  function MinY(ps: seq<Point>): (m: real)
    requires |ps| > 0
    ensures forall i :: 0 <= i < |ps| ==> m <= ps[i].y
    ensures exists i :: 0 <= i < |ps| && ps[i].y == m
  {
    if |ps| == 1 then ps[0].y
    else var m := MinY(ps[..|ps| - 1]); if ps[|ps| - 1].y < m then ps[|ps| - 1].y else m
  }

  /** `span() <= limit`, where an infinite span is never within a limit. */
  predicate SpanWithin(s: Span, limit: real)
  {
    s.Finite? && s.value <= limit
  }

  /**
   * The tiered rule of `detect()` once the angular-velocity and detection-count guards have
   * passed: more than 2 detections within 50 px, more than 5 within 150, more than 20 within 500.
   */
  predicate TieredRule(count: int, s: Span)
  {
    (count > 2 && SpanWithin(s, 50.0)) || (count > 5 && SpanWithin(s, 150.0)) || (count > 20 && SpanWithin(s, 500.0))
  }

  class Track {
    const trackId: int
    const startFrame: int
    var servalTime: int
    var missingCounter: int
    var basePoint: Point
    var areaList: seq<int>
    var detectionSequence: seq<int>
    var realPointList: seq<Point>
    var trajectoryList: seq<Point>
    var displayTrajectoryList: seq<Point>

    function Data(): TrackData
      reads this
    {
      TrackData(servalTime, missingCounter, basePoint, areaList, detectionSequence,
                realPointList, trajectoryList, displayTrajectoryList)
    }

    ghost predicate Valid()
      reads this
    {
      ValidData(Data())
    }

    /** `Track.__init__`: a track born from its first detection. */
    constructor (id: int, message: Message, frameIndex: int)
      ensures trackId == id && startFrame == frameIndex
      ensures Data() == Initial(message)
      ensures Valid()
    {
      var p := PointOf(message);
      trackId := id;
      startFrame := frameIndex;
      servalTime := SERVAL_TIME;
      missingCounter := 0;
      basePoint := p;
      areaList := [message.area];
      detectionSequence := [1];
      realPointList := [p];
      trajectoryList := [p];
      displayTrajectoryList := [p];
    }

    /** `update_display_queue`: shifts every display point in place when a translation is given. */
    method UpdateDisplayQueue(translation: Option<Vec>)
      modifies this
      ensures displayTrajectoryList == ShiftDisplay(old(displayTrajectoryList), translation)
      ensures Data() == old(Data()).(displayTrajectoryList := displayTrajectoryList)
    {
      if translation.Some? {
        var t := translation.value;
        var i := 0;
        while i < |displayTrajectoryList|
          invariant 0 <= i <= |displayTrajectoryList| == |old(displayTrajectoryList)|
          invariant forall k :: 0 <= k < i ==> displayTrajectoryList[k] == ShiftTrunc(old(displayTrajectoryList)[k], t)
          invariant forall k :: i <= k < |displayTrajectoryList| ==> displayTrajectoryList[k] == old(displayTrajectoryList)[k]
          invariant Data() == old(Data()).(displayTrajectoryList := displayTrajectoryList)
        {
          displayTrajectoryList := displayTrajectoryList[i := ShiftTrunc(displayTrajectoryList[i], t)];
          i := i + 1;
        }
      }
    }

    /** `Track.update`: one frame, matched to `message` or (when it is None) missed. */
    method Update(message: Option<Message>, translation: Option<Vec>)
      requires message.Some? || translation.Some? || missingCounter >= MISSING_THRESHOLD
      modifies this
      ensures Data() == Step(old(Data()), message, translation)
    {
      UpdateDisplayQueue(translation);
      var shown := displayTrajectoryList;
      if message.Some? {
        var m := message.value;
        var p := PointOf(m);
        servalTime, missingCounter, basePoint := servalTime - 1, 0, p;
        areaList, detectionSequence, realPointList := areaList + [m.area], detectionSequence + [1], realPointList + [p];
        trajectoryList, displayTrajectoryList := shown + [p], shown + [p];
      } else {
        var base, missing := basePoint, missingCounter;
        if missingCounter < MISSING_THRESHOLD {
          base, missing := ShiftTrunc(basePoint, translation.value), missingCounter + 1;
        }
        servalTime, missingCounter, basePoint := servalTime - 1, missing, base;
        detectionSequence, displayTrajectoryList := detectionSequence + [0], shown + [base];
      }
    }

    /** `missing()`: the track has been missed MISSING_THRESHOLD frames in a row. */
    function Missing(): bool
      reads this
    {
      missingCounter >= MISSING_THRESHOLD
    }

    /**
     * `dead()`: the survival countdown has run out. An expired track first loses its trailing
     * misses from the detection sequence, the trajectory and the display trajectory.
     */
    method Dead() returns (die: bool)
      modifies this
      ensures die <==> old(servalTime) <= 0
      ensures Data() == if die then Expired(old(Data())) else old(Data())
      ensures old(Valid()) ==> Valid()
    {
      die := false;
      if servalTime <= 0 {
        while |detectionSequence| > 0 && detectionSequence[|detectionSequence| - 1] == 0
          invariant TrimTrailingZeros(detectionSequence) == TrimTrailingZeros(old(detectionSequence))
          invariant Data() == old(Data()).(detectionSequence := detectionSequence)
        {
          detectionSequence := detectionSequence[..|detectionSequence| - 1];
        }
        var length := |detectionSequence|;
        if length <= |trajectoryList| {
          trajectoryList := trajectoryList[..length];
        }
        if length <= |displayTrajectoryList| {
          displayTrajectoryList := displayTrajectoryList[..length];
        }
        die := true;
        if ValidData(old(Data())) {
          ExpiredPreservesValid(old(Data()));
        }
      }
    }

    /** `span()` of this track. */
    function Span(): Span
      reads this
    {
      SpanOf(displayTrajectoryList)
    }

    /** `display()`: the track has more than two detections. */
    function Display(): bool
      reads this
    {
      CountOnes(detectionSequence) > 2
    }

    /**
     * `detect()`: the realness test. False when the mean turning angle of the trajectory is not
     * positive or there are fewer than 3 detections; otherwise the tiered span rule.
     */
    function Detect(sqrt: real -> real, acosDeg: real -> real): (isReal: bool)
      reads this
      ensures isReal ==> Kinematics.AngularVelocity(trajectoryList, sqrt, acosDeg) > 0.0
      ensures isReal ==> CountOnes(detectionSequence) >= 3
      ensures isReal <==> (Kinematics.AngularVelocity(trajectoryList, sqrt, acosDeg) > 0.0
                           && TieredRule(CountOnes(detectionSequence), Span()))
    {
      var count := CountOnes(detectionSequence);
      if Kinematics.AngularVelocity(trajectoryList, sqrt, acosDeg) <= 0.0 || count < 3 then false
      else if count > 2 && SpanWithin(Span(), 50.0) then true
      else if count > 5 && SpanWithin(Span(), 150.0) then true
      else if count > 20 && SpanWithin(Span(), 500.0) then true
      else false
    }

    /** `get_area()`: the mean area of the matched detections. */
    function GetArea(): (a: real)
      reads this
      requires Valid()
      ensures a * (|areaList| as real) == Sum(areaList) as real
    {
      Sum(areaList) as real / (|areaList| as real)
    }
  }

  /** A new track: one detection, one point in every history, nothing missed, 100 frames to live. */
  lemma InitialTrack(m: Message)
    ensures ValidData(Initial(m))
    ensures Initial(m).detectionSequence == [1] && Initial(m).missingCounter == 0
    ensures Initial(m).servalTime == 100
    ensures |Initial(m).areaList| == |Initial(m).realPointList| == |Initial(m).trajectoryList| == 1
    ensures Initial(m).displayTrajectoryList == [PointOf(m)]
  {
  }

  /** Every update costs one frame of life and adds exactly one flag and one display point. */
  lemma StepBookkeeping(d: TrackData, message: Option<Message>, translation: Option<Vec>)
    requires message.Some? || translation.Some? || d.missingCounter >= MISSING_THRESHOLD
    ensures Step(d, message, translation).servalTime == d.servalTime - 1
    ensures Step(d, message, translation).detectionSequence == d.detectionSequence + [if message.Some? then 1 else 0]
    ensures |Step(d, message, translation).displayTrajectoryList| == |d.displayTrajectoryList| + 1
  {
  }

  /** A match resets the missing counter, moves the reference point to the detection and re-takes the trajectory. */
  lemma MatchedStep(d: TrackData, m: Message, translation: Option<Vec>)
    ensures Step(d, Some(m), translation).missingCounter == 0
    ensures Step(d, Some(m), translation).basePoint == PointOf(m)
    ensures Step(d, Some(m), translation).trajectoryList == Step(d, Some(m), translation).displayTrajectoryList
    ensures Step(d, Some(m), translation).areaList == d.areaList + [m.area]
  {
  }

  /**
   * A miss moves the reference point with the camera and counts the miss only while the counter
   * is below its cap; at the cap the reference point is frozen. The counter never passes the cap.
   */
  lemma MissedStep(d: TrackData, translation: Option<Vec>)
    requires ValidData(d)
    requires translation.Some? || d.missingCounter >= MISSING_THRESHOLD
    ensures var r := Step(d, None, translation);
      && r.missingCounter <= MISSING_THRESHOLD
      && (d.missingCounter < MISSING_THRESHOLD ==>
            r.missingCounter == d.missingCounter + 1 && r.basePoint == ShiftTrunc(d.basePoint, translation.value))
      && (d.missingCounter == MISSING_THRESHOLD ==> r.missingCounter == d.missingCounter && r.basePoint == d.basePoint)
      && r.trajectoryList == d.trajectoryList
      && r.displayTrajectoryList[|r.displayTrajectoryList| - 1] == r.basePoint
  {
  }

  /** Without a translation the display trajectory is only extended; with one, every old point moves. */
  lemma DisplayShift(d: TrackData, message: Option<Message>, translation: Option<Vec>)
    requires message.Some? || translation.Some? || d.missingCounter >= MISSING_THRESHOLD
    ensures var r := Step(d, message, translation).displayTrajectoryList;
      && |r| == |d.displayTrajectoryList| + 1
      && (translation.None? ==> r[..|d.displayTrajectoryList|] == d.displayTrajectoryList)
      && (translation.Some? ==> forall i :: 0 <= i < |d.displayTrajectoryList| ==>
            r[i] == Point(Trunc(d.displayTrajectoryList[i].x + translation.value.dx) as real,
                          Trunc(d.displayTrajectoryList[i].y + translation.value.dy) as real))
  {
  }

  /** `update` keeps the bookkeeping invariant. */
  lemma StepPreservesValid(d: TrackData, message: Option<Message>, translation: Option<Vec>)
    requires ValidData(d)
    requires message.Some? || translation.Some? || d.missingCounter >= MISSING_THRESHOLD
    ensures ValidData(Step(d, message, translation))
  {
    var b := if message.Some? then 1 else 0;
    CountOnesAppend(d.detectionSequence, b);
    var s := d.detectionSequence + [b];
    assert s[..|s| - 1] == d.detectionSequence;
  }

  /** An expired track ends in a detection, keeps all its detections, and its histories are cut to match. */
  lemma ExpiredPreservesValid(d: TrackData)
    requires ValidData(d)
    ensures ValidData(Expired(d))
    ensures var e := Expired(d).detectionSequence;
      && |e| > 0 && e[|e| - 1] == 1
      && |Expired(d).displayTrajectoryList| == |e|
      && |Expired(d).trajectoryList| == |e|
      && CountOnes(e) == CountOnes(d.detectionSequence)
  {
    var s := d.detectionSequence;
    TrimKeepsOnes(s);
    TrimEndsInDetection(s);
    var e := TrimTrailingZeros(s);
    assert e[0] == 1;
    assert IsBits(e) by { assert forall i :: 0 <= i < |e| ==> e[i] == s[i]; }
    TrimIdempotent(s);
  }

  /** Trimming twice is trimming once. */
  lemma TrimIdempotent(s: seq<int>)
    ensures TrimTrailingZeros(TrimTrailingZeros(s)) == TrimTrailingZeros(s)
  {
  }

  /** The display rule: three detections are needed before a track is shown. */
  lemma DisplayThreshold(t: Track)
    ensures t.Display() <==> CountOnes(t.detectionSequence) >= 3
  {
  }

  /** Trailing misses of an expired track: [1, 1, 0, 0, 0] trims to length 2. */
  lemma TrimExample()
    ensures TrimTrailingZeros([1, 1, 0, 0, 0]) == [1, 1]
  {
    assert [1, 1, 0, 0, 0][..4] == [1, 1, 0, 0];
    assert [1, 1, 0, 0][..3] == [1, 1, 0];
    assert [1, 1, 0][..2] == [1, 1];
  }
}
