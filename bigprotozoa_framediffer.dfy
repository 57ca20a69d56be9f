/**
 * The activity bookkeeping of small_protozoa/bigprotozoa_framediffer.py (class `Bp_frame`).
 *
 * `record` maps a track id of a large organism to its activity: `total_activity` and the
 * `small_area` list. `cls[key][track_id]` is the same dictionary object as
 * `record[track_id]`, so a class entry is modelled as the set of ids registered under the
 * class; what it shows is always the record of that id.
 *
 * `area_rate` and `is_same` walk every (current, previous) pair; an exception leaves the
 * updates made before it in place, and is reported as `raised`.
 */
module FrameDiffer {
  import opened Common
  import SportsType
  import BugManager

  /** `Bp_frame.OFFSET`. */
  const OFFSET: int := 5
  /** `Bp_frame.iou_thresh`. */
  const IOU_THRESH: real := 0.8
  /** `Bp_frame.area_thresh`. */
  const AREA_THRESH: real := 0.1

  type Output = SportsType.Output

  /** One record: `total_activity` and `small_area`. */
  datatype Activity = Activity(total: real, smallAreas: seq<int>)

  /** A new record, as `inside` and `area_rate` create it. */
  const FRESH: Activity := Activity(0.0, [])

  /** `record` and the ids registered under each class key of `cls`. */
  datatype Tally = Tally(record: map<int, Activity>, cls: map<Label, set<int>>)

  /** The state of a pass over pairs: the records, and whether an exception ended it. */
  datatype Outcome = Outcome(record: map<int, Activity>, raised: bool)

  function Min(a: int, b: int): int
  {
    if a <= b then a else b
  }

  function Abs(a: int): nat
  {
    if a < 0 then -a else a
  }

  /** All six class keys are present, and every registered id has a record. */
  ghost predicate Sound(t: Tally)
  {
    && Gs in t.cls && Mo in t.cls && Do in t.cls && Eu in t.cls && Ne in t.cls && Ar in t.cls
    && forall l, id :: l in t.cls && id in t.cls[l] ==> id in t.record
  }

  /** The id is registered under the class key. */
  predicate Registered(cls: map<Label, set<int>>, l: Label, id: int)
  {
    l in cls && id in cls[l]
  }

  /** The point lies in the box widened by `OFFSET` on every side. */
  predicate InBox(x: int, y: int, b: Box)
  {
    b.x1 - OFFSET <= x <= b.x2 + OFFSET && b.y1 - OFFSET <= y <= b.y2 + OFFSET
  }

  /**
   * `inside(x, y, area, ...)` for one output and its class code: make sure the id has a
   * record, count the point and keep its area when it lies in the widened box, and register
   * the id under the class the code names.
   */
  function InsideOne(t: Tally, m: Message, o: Output, code: int): (r: Tally)
    ensures o.trackId in r.record && r.record.Keys == t.record.Keys + {o.trackId}
  {
    var id := o.trackId;
    var rec := if id in t.record then t.record else t.record[id := FRESH];
    var a := rec[id];
    var rec2 := if InBox(m.x, m.y, o.box) then rec[id := Activity(a.total + 1.0, a.smallAreas + [m.area])] else rec;
    var cls2 := match BugManager.ClsToEnglishName(code)
      case Some(l) => t.cls[l := (if l in t.cls then t.cls[l] else {}) + {id}]
      case None => t.cls;
    Tally(rec2, cls2)
  }

  /** `inside` for one output keeps every class key, and registers only ids it gave a record. */
  lemma InsideOneSound(t: Tally, m: Message, o: Output, code: int)
    requires Sound(t)
    ensures Sound(InsideOne(t, m, o, code))
  {
  }

  /**
   * The activity of the output's id rises by exactly 1, and the area is kept, iff the point
   * is in the widened box; a new id starts from 0 and no areas. Other records stay as they
   * were. The id is registered under a class key iff its code names that class.
   */
  lemma InsideOneRule(t: Tally, m: Message, o: Output, code: int)
    ensures var r, id := InsideOne(t, m, o, code), o.trackId;
      var before := if id in t.record then t.record[id] else FRESH;
      && (InBox(m.x, m.y, o.box) ==> r.record[id] == Activity(before.total + 1.0, before.smallAreas + [m.area]))
      && (!InBox(m.x, m.y, o.box) ==> r.record[id] == before)
      && (forall other :: other in t.record && other != id ==> r.record[other] == t.record[other])
      && (forall l: Label :: Registered(r.cls, l, id) <==> Registered(t.cls, l, id) || BugManager.ClsToEnglishName(code) == Some(l))
  {
  }

  /** `inside` over the first `n` pairs of `zip(outputs, cls_list)`. */
  function InsideRun(t: Tally, m: Message, outputs: seq<Output>, codes: seq<int>, n: nat): Tally
    requires n <= |outputs| && n <= |codes|
  {
    if n == 0 then t
    else InsideOne(InsideRun(t, m, outputs, codes, n - 1), m, outputs[n - 1], codes[n - 1])
  }

  /** After the first `n` pairs, every earlier record is still there and every one of those outputs has one. */
  lemma {:induction false} InsideRunRecords(t: Tally, m: Message, outputs: seq<Output>, codes: seq<int>, n: nat)
    requires n <= |outputs| && n <= |codes|
    ensures var r := InsideRun(t, m, outputs, codes, n);
      t.record.Keys <= r.record.Keys && forall k :: 0 <= k < n ==> outputs[k].trackId in r.record
  {
    if n > 0 {
      InsideRunRecords(t, m, outputs, codes, n - 1);
    }
  }

  /** After the first `n` pairs, the only new records are those of the outputs' ids. */
  lemma {:induction false} InsideRunOnlyOutputs(t: Tally, m: Message, outputs: seq<Output>, codes: seq<int>, n: nat)
    requires n <= |outputs| && n <= |codes|
    ensures var r := InsideRun(t, m, outputs, codes, n);
      forall id :: id in r.record ==> id in t.record || exists k :: 0 <= k < n && outputs[k].trackId == id
  {
    if n > 0 {
      InsideRunOnlyOutputs(t, m, outputs, codes, n - 1);
      var r0 := InsideRun(t, m, outputs, codes, n - 1);
      var r := InsideRun(t, m, outputs, codes, n);
      forall id | id in r.record
        ensures id in t.record || exists k :: 0 <= k < n && outputs[k].trackId == id
      {
        if id != outputs[n - 1].trackId {
          assert id in r0.record;
        }
      }
    }
  }

  /** `inside` keeps the tally sound. */
  lemma {:induction false} InsideRunSound(t: Tally, m: Message, outputs: seq<Output>, codes: seq<int>, n: nat)
    requires n <= |outputs| && n <= |codes| && Sound(t)
    ensures Sound(InsideRun(t, m, outputs, codes, n))
  {
    if n > 0 {
      InsideRunSound(t, m, outputs, codes, n - 1);
      InsideOneSound(InsideRun(t, m, outputs, codes, n - 1), m, outputs[n - 1], codes[n - 1]);
    }
  }

  /** `inside(x, y, area, outputs, others)`. */
  function InsideOf(t: Tally, m: Message, outputs: seq<Output>, codes: seq<int>): Tally
  {
    InsideRun(t, m, outputs, codes, Min(|outputs|, |codes|))
  }

  /** The loop of `bp_frame_differ` over the small-organism messages. */
  function InsideAll(t: Tally, messages: seq<Message>, outputs: seq<Output>, codes: seq<int>): Tally
  {
    if messages == [] then t
    else InsideOf(InsideAll(t, messages[..|messages| - 1], outputs, codes), messages[|messages| - 1], outputs, codes)
  }

  /** The messages loop keeps the tally sound. */
  lemma {:induction false} InsideAllSound(t: Tally, messages: seq<Message>, outputs: seq<Output>, codes: seq<int>)
    requires Sound(t)
    ensures Sound(InsideAll(t, messages, outputs, codes))
  {
    if messages != [] {
      InsideAllSound(t, messages[..|messages| - 1], outputs, codes);
      InsideRunSound(InsideAll(t, messages[..|messages| - 1], outputs, codes), messages[|messages| - 1], outputs, codes, Min(|outputs|, |codes|));
    }
  }

  /** Every output of the zip range has a record after `inside`, whatever the point. */
  lemma InsideRecordsEveryOutput(t: Tally, m: Message, outputs: seq<Output>, codes: seq<int>, k: int)
    requires 0 <= k < |outputs| && k < |codes|
    ensures outputs[k].trackId in InsideOf(t, m, outputs, codes).record
  {
    InsideRunRecords(t, m, outputs, codes, Min(|outputs|, |codes|));
  }

  /** The top-left and bottom-right corners both have a non-zero coordinate sum, and the ids agree. */
  predicate Considered(p: Output, c: Output)
  {
    && p.box.x1 + p.box.y1 != 0 && p.box.x2 + p.box.y2 != 0
    && c.box.x1 + c.box.y1 != 0 && c.box.x2 + c.box.y2 != 0
    && p.trackId == c.trackId
  }

  /** What a pair with a rate above `area_thresh` adds: `rate * 50` below 0.5, else 25. */
  function Gain(rate: real): (g: real)
    requires rate > AREA_THRESH
    ensures 5.0 < g <= 25.0
    ensures rate < 0.5 ==> g == rate * 50.0
    ensures rate >= 0.5 ==> g == 25.0
  {
    if rate < 0.5 then rate * 50.0 else 25.0
  }

  /** The area change of a pair over the current area: `area_diff / box2_area`. */
  function Rate(p: Output, c: Output): real
    requires SportsType.Area(c.box) != 0
  {
    Abs(SportsType.Area(c.box) - SportsType.Area(p.box)) as real / SportsType.Area(c.box) as real
  }

  /**
   * One pair of `area_rate(pre_frame, cur_frame)`. The rate is the area change over the
   * current area, which raises ZeroDivisionError for an empty current box. Above 0.1 the id
   * gets a record if it had none, and the gain when it is registered under Mo or Do.
   */
  function RateStep(record: map<int, Activity>, cls: map<Label, set<int>>, p: Output, c: Output): (o: Outcome)
  {
    if !Considered(p, c) then Outcome(record, false)
    else
      if SportsType.Area(c.box) == 0 then Outcome(record, true)
      else
        var rate := Rate(p, c);
        if rate <= AREA_THRESH then Outcome(record, false)
        else
          var id := c.trackId;
          var rec := if id in record then record else record[id := FRESH];
          if Registered(cls, Mo, id) || Registered(cls, Do, id) then
            Outcome(rec[id := rec[id].(total := rec[id].total + Gain(rate))], false)
          else Outcome(rec, false)
  }

  /**
   * One pair of `is_same(pre_frame, cur_frame)`. Its id test compares `track_id1` with
   * itself, so every pair is compared. An empty union raises ZeroDivisionError; an overlap
   * below `iou_thresh` adds 10 to the current id, and raises KeyError when the id has no
   * record.
   */
  function SameStep(record: map<int, Activity>, p: Output, c: Output): (o: Outcome)
  {
    match SportsType.IsSame(p, c)
    case None => Outcome(record, true)
    case Some(iou) =>
      if iou < IOU_THRESH then
        if c.trackId !in record then Outcome(record, true)
        else Outcome(record[c.trackId := record[c.trackId].(total := record[c.trackId].total + 10.0)], false)
      else Outcome(record, false)
  }

  /** Which of the two pair walks. */
  datatype Rule = RateRule | SameRule

  function PairStep(rule: Rule, record: map<int, Activity>, cls: map<Label, set<int>>, p: Output, c: Output): Outcome
  {
    match rule
    case RateRule => RateStep(record, cls, p, c)
    case SameRule => SameStep(record, p, c)
  }

  /** The pairs of `c` with every previous output, in order. */
  function Row(pre: seq<Output>, c: Output): (r: seq<(Output, Output)>)
    ensures |r| == |pre| && forall k :: 0 <= k < |pre| ==> r[k] == (pre[k], c)
  {
    seq(|pre|, k requires 0 <= k < |pre| => (pre[k], c))
  }

  /** `for output2 in cur_frame: for output1 in pre_frame`: the pairs in visiting order. */
  function Pairs(pre: seq<Output>, cur: seq<Output>): (r: seq<(Output, Output)>)
    ensures |r| == |pre| * |cur|
  {
    if cur == [] then [] else Pairs(pre, cur[..|cur| - 1]) + Row(pre, cur[|cur| - 1])
  }

  /** A walk over the pairs, stopping at the first exception. */
  function Walk(rule: Rule, record: map<int, Activity>, cls: map<Label, set<int>>, ps: seq<(Output, Output)>): (o: Outcome)
    ensures record.Keys <= o.record.Keys
  {
    if ps == [] then Outcome(record, false)
    else
      var o := Walk(rule, record, cls, ps[..|ps| - 1]);
      if o.raised then o
      else
        var q := Last(ps);
        var r := PairStep(rule, o.record, cls, q.0, q.1);
        r
  }

  function Last<T>(s: seq<T>): T
    requires |s| > 0
  {
    s[|s| - 1]
  }

  /** Once a walk has raised, the pairs after it are never visited. */
  lemma {:induction false} RaisedStays(rule: Rule, record: map<int, Activity>, cls: map<Label, set<int>>, ps: seq<(Output, Output)>, qs: seq<(Output, Output)>)
    requires ps <= qs && Walk(rule, record, cls, ps).raised
    ensures Walk(rule, record, cls, qs) == Walk(rule, record, cls, ps)
    decreases |qs|
  {
    if |qs| > |ps| {
      assert ps <= qs[..|qs| - 1];
      RaisedStays(rule, record, cls, ps, qs[..|qs| - 1]);
    } else {
      assert ps == qs;
    }
  }

  /** The total of an id before a step: its record's, or 0 for an id without one. */
  function TotalOf(record: map<int, Activity>, id: int): real
  {
    if id in record then record[id].total else 0.0
  }

  /**
   * One pair of `area_rate` raises iff it is considered and the current box is empty.
   * Otherwise only the current id can change: it gains a record exactly when the pair is
   * considered with a rate above `area_thresh`, its areas stay, and its total rises by the
   * `Gain` of the rate exactly when, in addition, the id is registered under Mo or Do; that
   * gain is more than 5 and at most 25.
   */
  lemma RateStepRule(record: map<int, Activity>, cls: map<Label, set<int>>, p: Output, c: Output)
    ensures var o, id := RateStep(record, cls, p, c), c.trackId;
      && (o.raised <==> Considered(p, c) && SportsType.Area(c.box) == 0)
      && (!o.raised ==>
            && o.record.Keys <= record.Keys + {id}
            && (forall other :: other in record && other != id ==> o.record[other] == record[other])
            && (id in o.record ==>
                  && o.record[id].smallAreas == (if id in record then record[id].smallAreas else [])
                  && (o.record[id].total == TotalOf(record, id)
                      || (&& TotalOf(record, id) + 5.0 < o.record[id].total <= TotalOf(record, id) + 25.0
                          && Considered(p, c) && (Registered(cls, Mo, id) || Registered(cls, Do, id))))))
    ensures var o, id := RateStep(record, cls, p, c), c.trackId;
      var fires := Considered(p, c) && SportsType.Area(c.box) != 0 && Rate(p, c) > AREA_THRESH;
      !o.raised ==>
        && (id in o.record <==> id in record || fires)
        && (id in o.record ==>
              o.record[id].total == TotalOf(record, id) +
                (if fires && (Registered(cls, Mo, id) || Registered(cls, Do, id)) then Gain(Rate(p, c)) else 0.0))
  {
  }

  /**
   * One pair of `is_same` raises iff the union is empty, or the overlap is low and the
   * current id has no record. Otherwise it adds 10 to the current id exactly when the overlap
   * is below `iou_thresh`, and touches nothing else.
   */
  lemma SameStepRule(record: map<int, Activity>, p: Output, c: Output)
    ensures var o, id := SameStep(record, p, c), c.trackId;
      && (o.raised <==> SportsType.IsSame(p, c).None? || (SportsType.IsSame(p, c).value < IOU_THRESH && id !in record))
      && (!o.raised ==>
            && o.record.Keys == record.Keys
            && (forall other :: other in record && other != id ==> o.record[other] == record[other])
            && (id in record ==> o.record[id].smallAreas == record[id].smallAreas
                                 && (o.record[id].total == record[id].total || o.record[id].total == record[id].total + 10.0)))
    ensures var o, id := SameStep(record, p, c), c.trackId;
      !o.raised && id in record ==>
        o.record[id].total == record[id].total + (if SportsType.IsSame(p, c).value < IOU_THRESH then 10.0 else 0.0)
  {
  }

  /** The previous output's track id plays no part in `is_same`: every pair is compared. */
  lemma SameIgnoresPreviousId(record: map<int, Activity>, p: Output, c: Output, id: int)
    ensures SameStep(record, p, c) == SameStep(record, SportsType.Output(p.box, id), c)
  {
  }

  /**
   * Over a whole `area_rate` walk that does not raise, no total falls and each rises by at
   * most 25 per pair.
   */
  lemma {:induction false} RateWalkBound(record: map<int, Activity>, cls: map<Label, set<int>>, ps: seq<(Output, Output)>)
    requires !Walk(RateRule, record, cls, ps).raised
    ensures var o := Walk(RateRule, record, cls, ps);
      forall id :: id in o.record ==> TotalOf(record, id) <= o.record[id].total <= TotalOf(record, id) + 25.0 * |ps| as real
  {
    if ps != [] {
      var front := ps[..|ps| - 1];
      var o := Walk(RateRule, record, cls, front);
      RateWalkBound(record, cls, front);
      var q := Last(ps);
      RateStepRule(o.record, cls, q.0, q.1);
      var r := Walk(RateRule, record, cls, ps);
      forall id | id in r.record
        ensures TotalOf(record, id) <= r.record[id].total <= TotalOf(record, id) + 25.0 * |ps| as real
      {
        assert TotalOf(o.record, id) <= TotalOf(record, id) + 25.0 * |front| as real;
        assert TotalOf(record, id) <= TotalOf(o.record, id);
      }
    }
  }

  /** The first `i` pairs of a row come before the rest of it. */
  lemma RowPrefix(done: seq<(Output, Output)>, pre: seq<Output>, c: Output, i: nat)
    requires i <= |pre|
    ensures done + Row(pre[..i], c) <= done + Row(pre, c)
  {
    assert Row(pre[..i], c) == Row(pre, c)[..i];
  }

  /** One more pair of a row. */
  lemma RowSnoc(done: seq<(Output, Output)>, pre: seq<Output>, c: Output, i: nat)
    requires i < |pre|
    ensures done + Row(pre[..i], c) + [(pre[i], c)] == done + Row(pre[..i + 1], c)
  {
    assert Row(pre[..i], c) + [(pre[i], c)] == Row(pre[..i + 1], c);
  }

  /** The pairs of the first rows come first. */
  lemma {:induction false} PairsMono(pre: seq<Output>, cur: seq<Output>, j: nat)
    requires j <= |cur|
    ensures Pairs(pre, cur[..j]) <= Pairs(pre, cur)
    decreases |cur| - j
  {
    if j < |cur| {
      PairsMono(pre, cur, j + 1);
      assert cur[..j + 1][..j] == cur[..j];
      assert Pairs(pre, cur[..j + 1]) == Pairs(pre, cur[..j]) + Row(pre, cur[j]);
    } else {
      assert cur[..j] == cur;
    }
  }

  /** The walk after one more pair. */
  lemma WalkSnoc(rule: Rule, record: map<int, Activity>, cls: map<Label, set<int>>, ps: seq<(Output, Output)>, q: (Output, Output))
    requires !Walk(rule, record, cls, ps).raised
    ensures Walk(rule, record, cls, ps + [q]) == PairStep(rule, Walk(rule, record, cls, ps).record, cls, q.0, q.1)
  {
    assert (ps + [q])[..|ps|] == ps;
  }

  /** `Bp_frame`: the activity records and the outputs of the last two frames. */
  class BpFrame {
    var record: map<int, Activity>
    var cls: map<Label, set<int>>
    var preOutputs: seq<Output>
    var curOutputs: seq<Output>

    ghost predicate Valid()
      reads this
    {
      Sound(Tally(record, cls))
    }

    /** `__init__`: no records, six empty class keys, no outputs. */
    constructor ()
      ensures Valid()
      ensures record == map[] && preOutputs == [] && curOutputs == []
      ensures cls == map[Gs := {}, Mo := {}, Do := {}, Eu := {}, Ne := {}, Ar := {}]
    {
      record := map[];
      cls := map[Gs := {}, Mo := {}, Do := {}, Eu := {}, Ne := {}, Ar := {}];
      preOutputs, curOutputs := [], [];
    }

    /** `inside(x, y, area, outputs, others)`. */
    method Inside(m: Message, outputs: seq<Output>, codes: seq<int>)
      modifies this`record, this`cls
      ensures Tally(record, cls) == InsideOf(old(Tally(record, cls)), m, outputs, codes)
    {
      ghost var t0 := Tally(record, cls);
      var n := Min(|outputs|, |codes|);
      var i := 0;
      while i < n
        invariant 0 <= i <= n
        invariant Tally(record, cls) == InsideRun(t0, m, outputs, codes, i)
      {
        InsideOutput(m, outputs[i], codes[i]);
        assert InsideRun(t0, m, outputs, codes, i + 1) == InsideOne(InsideRun(t0, m, outputs, codes, i), m, outputs[i], codes[i]);
        i := i + 1;
      }
    }

    /** The body of `inside`'s loop for one output and its class code. */
    method InsideOutput(m: Message, o: Output, code: int)
      modifies this`record, this`cls
      ensures Tally(record, cls) == InsideOne(old(Tally(record, cls)), m, o, code)
    {
      var id := o.trackId;
      if id !in record {
        record := record[id := FRESH];
      }
      if InBox(m.x, m.y, o.box) {
        record := record[id := Activity(record[id].total + 1.0, record[id].smallAreas + [m.area])];
      }
      var key := BugManager.ClsToEnglishName(code);
      if key.Some? {
        if key.value in cls {
          cls := cls[key.value := cls[key.value] + {id}];
        } else {
          assert {} + {id} == {id};
          cls := cls[key.value := {id}];
        }
      }
    }

    /** One pair of `area_rate`. */
    method RatePair(p: Output, c: Output) returns (raised: bool)
      modifies this`record
      ensures Outcome(record, raised) == RateStep(old(record), cls, p, c)
    {
      raised := false;
      if Considered(p, c) {
        var a1, a2 := SportsType.Area(p.box), SportsType.Area(c.box);
        if a2 == 0 {
          return true;
        }
        var rate := Abs(a2 - a1) as real / a2 as real;
        if rate > AREA_THRESH {
          var id := c.trackId;
          if id !in record {
            record := record[id := FRESH];
          }
          if Registered(cls, Mo, id) || Registered(cls, Do, id) {
            if rate < 0.5 {
              record := record[id := record[id].(total := record[id].total + rate * 50.0)];
            } else {
              record := record[id := record[id].(total := record[id].total + 25.0)];
            }
          }
        }
      }
    }

    /** One pair of `is_same`. */
    method SamePair(p: Output, c: Output) returns (raised: bool)
      modifies this`record
      ensures Outcome(record, raised) == SameStep(old(record), p, c)
    {
      raised := false;
      var iou := SportsType.IsSame(p, c);
      if iou.None? {
        return true;
      }
      if iou.value < IOU_THRESH {
        if c.trackId !in record {
          return true;
        }
        record := record[c.trackId := record[c.trackId].(total := record[c.trackId].total + 10.0)];
      }
    }

    /** One pair, by the rule of the pass. */
    method VisitPair(rule: Rule, p: Output, c: Output) returns (raised: bool)
      modifies this`record
      ensures Outcome(record, raised) == PairStep(rule, old(record), cls, p, c)
    {
      if rule == RateRule {
        raised := RatePair(p, c);
      } else {
        raised := SamePair(p, c);
      }
    }

    /** The inner loop: the current output `c` against every previous output. */
    method VisitRow(rule: Rule, pre: seq<Output>, c: Output, ghost r0: map<int, Activity>, ghost done: seq<(Output, Output)>)
      returns (raised: bool)
      requires Outcome(record, false) == Walk(rule, r0, cls, done)
      modifies this`record
      ensures Outcome(record, raised) == Walk(rule, r0, cls, done + Row(pre, c))
    {
      raised := false;
      var i := 0;
      assert done + Row(pre[..0], c) == done;
      while i < |pre|
        invariant 0 <= i <= |pre|
        invariant Outcome(record, false) == Walk(rule, r0, cls, done + Row(pre[..i], c))
      {
        RowSnoc(done, pre, c, i);
        WalkSnoc(rule, r0, cls, done + Row(pre[..i], c), (pre[i], c));
        raised := VisitPair(rule, pre[i], c);
        if raised {
          RowPrefix(done, pre, c, i + 1);
          RaisedStays(rule, r0, cls, done + Row(pre[..i + 1], c), done + Row(pre, c));
          return;
        }
        i := i + 1;
      }
      assert pre[..i] == pre;
    }

    /** The two nested loops over (current, previous) pairs, left at the first exception. */
    method Compare(rule: Rule, pre: seq<Output>, cur: seq<Output>) returns (raised: bool)
      modifies this`record
      ensures Outcome(record, raised) == Walk(rule, old(record), cls, Pairs(pre, cur))
    {
      ghost var r0 := record;
      raised := false;
      var j := 0;
      while j < |cur|
        invariant 0 <= j <= |cur|
        invariant Outcome(record, false) == Walk(rule, r0, cls, Pairs(pre, cur[..j]))
      {
        raised := VisitRow(rule, pre, cur[j], r0, Pairs(pre, cur[..j]));
        assert cur[..j + 1][..j] == cur[..j];
        assert Pairs(pre, cur[..j + 1]) == Pairs(pre, cur[..j]) + Row(pre, cur[j]);
        if raised {
          PairsMono(pre, cur, j + 1);
          RaisedStays(rule, r0, cls, Pairs(pre, cur[..j + 1]), Pairs(pre, cur));
          return;
        }
        j := j + 1;
      }
      assert cur[..j] == cur;
    }

    /** `area_rate(pre_frame, cur_frame)`. */
    method AreaRate(pre: seq<Output>, cur: seq<Output>) returns (raised: bool)
      modifies this`record
      ensures Outcome(record, raised) == Walk(RateRule, old(record), cls, Pairs(pre, cur))
    {
      raised := Compare(RateRule, pre, cur);
    }

    /** `is_same(pre_frame, cur_frame)`. */
    method IsSame(pre: seq<Output>, cur: seq<Output>) returns (raised: bool)
      modifies this`record
      ensures Outcome(record, raised) == Walk(SameRule, old(record), cls, Pairs(pre, cur))
    {
      raised := Compare(SameRule, pre, cur);
    }

    /**
     * `bp_frame_differ(frame_index, messages, outputs, others, frame)`: every message is
     * checked against every output, the outputs of this frame become the current ones and
     * the current ones the previous, and the area rates of the two are counted.
     */
    method BpFrameDiffer(messages: seq<Message>, outputs: seq<Output>, codes: seq<int>) returns (raised: bool)
      requires Valid()
      modifies this
      ensures Valid()
      ensures preOutputs == old(curOutputs) && curOutputs == outputs
      ensures var t := InsideAll(old(Tally(record, cls)), messages, outputs, codes);
        cls == t.cls && Outcome(record, raised) == Walk(RateRule, t.record, t.cls, Pairs(old(curOutputs), outputs))
    {
      ghost var t0 := Tally(record, cls);
      var k := 0;
      while k < |messages|
        invariant 0 <= k <= |messages|
        invariant Tally(record, cls) == InsideAll(t0, messages[..k], outputs, codes)
        invariant preOutputs == old(preOutputs) && curOutputs == old(curOutputs)
      {
        assert messages[..k + 1][..k] == messages[..k];
        Inside(messages[k], outputs, codes);
        k := k + 1;
      }
      assert messages[..k] == messages;
      preOutputs := curOutputs;
      curOutputs := outputs;
      ghost var t := Tally(record, cls);
      InsideAllSound(t0, messages, outputs, codes);
      raised := AreaRate(preOutputs, curOutputs);
      WalkKeepsSound(RateRule, t, Pairs(preOutputs, curOutputs));
    }
  }

  /** The walks only add records, so registered ids keep theirs. */
  lemma WalkKeepsSound(rule: Rule, t: Tally, ps: seq<(Output, Output)>)
    requires Sound(t)
    ensures Sound(Tally(Walk(rule, t.record, t.cls, ps).record, t.cls))
  {
  }
}
