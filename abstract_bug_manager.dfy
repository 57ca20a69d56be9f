/**
 * The record manager of the large organisms (big_microfauna/abstract_bug_manager.py).
 *
 * The manager keeps one `AbstractBug` per track id of the neural tracker, in dictionary order.
 * `Update` first creates a record for every id it has not seen, then gives every record exactly
 * one update: a detection with the first output of its id, or a translation-only miss. The
 * arguments of the detection update are bound by position, so the cluster count lands in the
 * blur slot and the blur flag in the cluster-count slot; the model keeps that binding.
 * `Clear` removes and returns the records whose countdown has run out.
 */
module BugManager {
  import opened Common
  import opened LargeBug

  /** One output row `(x1, y1, x2, y2, track_id)` with its class code and cluster count. */
  datatype Detection = Detection(box: Box, trackId: int, clsCode: int, bugNums: int)

  /** The class code of each label, as in `NAMES`. */
  function Code(l: Label): int
  {
    match l
    case Gs => 0
    case Mo => 1
    case Do => 2
    case Eu => 3
    case Ne => 4
    case Ar => 5
  }

  /** `_cls_to_english_name`: `NAMES.get(code)`, None for a code outside 0..5. */
  function ClsToEnglishName(code: int): (r: Option<Label>)
    ensures r.Some? <==> 0 <= code <= 5
    ensures r.Some? ==> Code(r.value) == code
  {
    if code == 0 then Some(Gs)
    else if code == 1 then Some(Mo)
    else if code == 2 then Some(Do)
    else if code == 3 then Some(Eu)
    else if code == 4 then Some(Ne)
    else if code == 5 then Some(Ar)
    else None
  }

  /** Every label is named back from its own code. */
  lemma NamesRoundTrip(l: Label)
    ensures ClsToEnglishName(Code(l)) == Some(l)
  {
  }

  /** `track_ids`: the ids of the outputs, in order. */
  function Ids(dets: seq<Detection>): (ids: seq<int>)
    ensures |ids| == |dets| && forall k :: 0 <= k < |dets| ==> ids[k] == dets[k].trackId
  {
    seq(|dets|, k requires 0 <= k < |dets| => dets[k].trackId)
  }

  /** `track_ids.index(id)` when `id in track_ids`: the first position of the id. */
  function FirstIndex(id: int, ids: seq<int>): (r: Option<nat>)
    ensures r.Some? <==> id in ids
    ensures r.Some? ==> r.value < |ids| && ids[r.value] == id && forall j :: 0 <= j < r.value ==> ids[j] != id
  {
    if ids == [] then None
    else match FirstIndex(id, ids[..|ids| - 1])
      case Some(k) => Some(k)
      case None => if ids[|ids| - 1] == id then Some(|ids| - 1) else None
  }

  /** The first loop of `update`: each id not yet in the dictionary is appended, in output order. */
  function AddIds(order: seq<int>, ids: seq<int>): seq<int>
  {
    if ids == [] then order
    else
      var o := AddIds(order, ids[..|ids| - 1]);
      if ids[|ids| - 1] in o then o else o + [ids[|ids| - 1]]
  }

  /** Adding one more id: it is appended unless already present. */
  lemma AddIdsStep(order: seq<int>, ids: seq<int>, i: nat)
    requires i < |ids|
    ensures AddIds(order, ids[..i + 1]) == if ids[i] in AddIds(order, ids[..i]) then AddIds(order, ids[..i]) else AddIds(order, ids[..i]) + [ids[i]]
  {
    assert ids[..i + 1][..i] == ids[..i];
  }

  /** The dictionary order after the first loop lists the old ids and every output id, once each. */
  lemma {:induction false} AddIdsSpec(order: seq<int>, ids: seq<int>)
    requires Distinct(order)
    ensures Distinct(AddIds(order, ids))
    ensures forall x :: x in AddIds(order, ids) <==> x in order || x in ids
    ensures |order| <= |AddIds(order, ids)| && AddIds(order, ids)[..|order|] == order
  {
    if ids != [] {
      var n := |ids| - 1;
      AddIdsSpec(order, ids[..n]);
      assert ids == ids[..n] + [ids[n]];
      var o := AddIds(order, ids[..n]);
      if ids[n] !in o {
        var r := o + [ids[n]];
        assert r[..|order|] == o[..|order|];
        forall i, j | 0 <= i < j < |r| ensures r[i] != r[j] {
          if j == |o| {
            assert r[i] in o;
          }
        }
      }
    }
  }

  /**
   * The second loop of `update` on one record. A record whose id is among the outputs takes a
   * screenshot when it is due, then a detection update with the first output of its id; the
   * cluster count goes to the blur slot and the frame's blur flag to the cluster-count slot.
   * Any other record is updated with the translation only.
   */
  function Visit(d: BugData, id: int, dets: seq<Detection>, frameIndex: int, blurry: int, translation: Option<Vec>): BugData
    requires id in Ids(dets) || d.bboxList != []
  {
    match FirstIndex(id, Ids(dets))
    case Some(k) =>
      var det := dets[k];
      var shot := if ScreenshotDue(d) then d.(screenshot := Some(Shot(frameIndex, det.box))) else d;
      Updated(shot, Some(det.box), ClsToEnglishName(det.clsCode), Some(det.bugNums), Some(blurry), translation)
    case None =>
      Updated(d, None, None, None, None, translation)
  }

  /** Every state of the dictionary is consistent. */
  ghost predicate AllValid(states: map<int, BugData>)
  {
    forall id {:trigger ValidData(states[id])} :: id in states ==> ValidData(states[id])
  }

  /** Every record of the dictionary is consistent. */
  ghost predicate AllValidIn(bugs: map<int, AbstractBug>)
    reads bugs.Values
  {
    forall id {:trigger ValidData(bugs[id].Data())} :: id in bugs ==> ValidData(bugs[id].Data())
  }

  /** Records each in a consistent state of `states` are all consistent. */
  lemma ValidSubset(bugs: map<int, AbstractBug>, states: map<int, BugData>)
    requires AllValid(states) && forall id :: id in bugs ==> id in states && bugs[id].Data() == states[id]
    ensures AllValidIn(bugs)
  {
    forall id | id in bugs ensures ValidData(bugs[id].Data()) {
      assert bugs[id].Data() == states[id];
    }
  }

  /** Records in the states `states` are all consistent exactly when those states are. */
  lemma HoldsValid(bugs: map<int, AbstractBug>, states: map<int, BugData>)
    requires HoldsIn(bugs, states)
    ensures AllValidIn(bugs) <==> AllValid(states)
  {
    if AllValid(states) {
      forall id | id in bugs ensures ValidData(bugs[id].Data()) {
        assert bugs[id].Data() == states[id];
      }
    }
    if AllValidIn(bugs) {
      forall id | id in states ensures ValidData(states[id]) {
        assert bugs[id].Data() == states[id];
      }
    }
  }

  /**
   * One visit keeps a consistent record consistent, and makes a new record whose id is among
   * the outputs consistent.
   */
  lemma VisitValid(d: BugData, id: int, dets: seq<Detection>, frameIndex: int, blurry: int, translation: Option<Vec>)
    requires ValidData(d) || (d == NewBug() && id in Ids(dets))
    ensures id in Ids(dets) || d.bboxList != []
    ensures ValidData(Visit(d, id, dets, frameIndex, blurry, translation))
  {
    match FirstIndex(id, Ids(dets))
    case Some(k) =>
      var det := dets[k];
      var shot := if ScreenshotDue(d) then d.(screenshot := Some(Shot(frameIndex, det.box))) else d;
      if d == NewBug() {
        FirstUpdate(shot, det.box, ClsToEnglishName(det.clsCode), Some(det.bugNums), Some(blurry), translation);
      } else {
        assert ValidData(shot);
        UpdatedValid(shot, Some(det.box), ClsToEnglishName(det.clsCode), Some(det.bugNums), Some(blurry), translation);
      }
    case None =>
      UpdatedValid(d, None, None, None, None, translation);
  }

  /**
   * What a visit does to a record whose id is among the outputs: the first output with the id
   * supplies the box and the class; the screenshot is refreshed only when it was due; the
   * cluster count lands in the blur list and the blur flag in the cluster-count list.
   */
  lemma VisitDetected(d: BugData, id: int, dets: seq<Detection>, frameIndex: int, blurry: int, translation: Option<Vec>, k: nat)
    requires k < |dets| && dets[k].trackId == id && forall j :: 0 <= j < k ==> dets[j].trackId != id
    ensures id in Ids(dets)
    ensures var r := Visit(d, id, dets, frameIndex, blurry, translation);
      && r.bboxList == d.bboxList + [dets[k].box]
      && r.detectionSequence == d.detectionSequence + [1]
      && r.clsDict == Vote(d.clsDict, ClsToEnglishName(dets[k].clsCode))
      && r.blurryList == d.blurryList + [Some(dets[k].bugNums)]
      && r.bugNumsList == d.bugNumsList + [Some(blurry)]
      && r.screenshot == if ScreenshotDue(d) then Some(Shot(frameIndex, dets[k].box)) else d.screenshot
  {
    assert Ids(dets)[k] == id;
  }

  /** A record whose id is not among the outputs is only moved with the camera: a miss. */
  lemma VisitMissed(d: BugData, id: int, dets: seq<Detection>, frameIndex: int, blurry: int, translation: Option<Vec>)
    requires id !in Ids(dets) && d.bboxList != []
    ensures Visit(d, id, dets, frameIndex, blurry, translation) == Updated(d, None, None, None, None, translation)
    ensures Visit(d, id, dets, frameIndex, blurry, translation).screenshot == d.screenshot
  {
  }

  /**
   * A consequence of the positional binding: when the manager's blur flags are 0 or 1, the
   * cluster-count list holds only those flags, so `_bug_number()` is 0 or 1 whatever the
   * cluster counts were.
   */
  lemma {:induction false} BugNumberOfFlags(s: seq<Option<int>>)
    requires |s| > 0 && forall i :: 0 <= i < |s| ==> s[i] == Some(0) || s[i] == Some(1)
    ensures CeilMean(s).Some? && 0 <= CeilMean(s).value <= 1
  {
    FlagSumBounds(s);
    var n, v, t := |s|, CeilMean(s).value, SumSome(s);
    assert n * v - n < t <= n * v;
    NonNegativeFactor(n, v);
    BelowTwo(n, v);
  }

  lemma NonNegativeFactor(n: int, v: int)
    requires n > 0 && n * v >= 0
    ensures v >= 0
  {
  }

  lemma BelowTwo(n: int, v: int)
    requires n > 0 && n * v < 2 * n
    ensures v <= 1
  {
  }

  lemma {:induction false} FlagSumBounds(s: seq<Option<int>>)
    requires forall i :: 0 <= i < |s| ==> s[i] == Some(0) || s[i] == Some(1)
    ensures 0 <= SumSome(s) <= |s|
  {
    if s != [] {
      FlagSumBounds(s[..|s| - 1]);
    }
  }

  /** Every record of `bugs` is in the state `states` gives for its id, and nothing else is listed. */
  ghost predicate HoldsIn(bugs: map<int, AbstractBug>, states: map<int, BugData>)
    reads bugs.Values
  {
    bugs.Keys == states.Keys && forall id :: id in bugs ==> bugs[id].Data() == states[id]
  }

  /** Distinct ids hold distinct records. */
  ghost predicate Injective(bugs: map<int, AbstractBug>)
  {
    forall a, b :: a in bugs && b in bugs && a != b ==> bugs[a] != bugs[b]
  }

  /** `ts` lists the records of `ids`, in that order. */
  ghost predicate Listed(ts: seq<AbstractBug>, ids: seq<int>, bugs: map<int, AbstractBug>)
  {
    |ts| == |ids| && forall k :: 0 <= k < |ids| ==> ids[k] in bugs && ts[k] == bugs[ids[k]]
  }

  lemma ListedSnoc(ts: seq<AbstractBug>, ids: seq<int>, bugs: map<int, AbstractBug>, id: int)
    requires Listed(ts, ids, bugs) && id in bugs
    ensures Listed(ts + [bugs[id]], ids + [id], bugs)
  {
  }

  /** The ids among the outputs, as a set. */
  function IdSet(ids: seq<int>): set<int>
  {
    set x | x in ids
  }

  /** Every record can be visited: it is among the outputs, or it has a box to repeat. */
  ghost predicate Ready(states: map<int, BugData>, ids: seq<int>)
  {
    forall id :: id in states ==> id in ids || states[id].bboxList != []
  }

  /** `vis` holds every record of `states` after one visit. */
  ghost predicate VisitsOf(states: map<int, BugData>, vis: map<int, BugData>, dets: seq<Detection>, frameIndex: int,
                           blurry: int, translation: Option<Vec>)
  {
    && Ready(states, Ids(dets))
    && vis.Keys == states.Keys
    && forall id {:trigger Visit(states[id], id, dets, frameIndex, blurry, translation)} :: id in vis ==> vis[id] == Visit(states[id], id, dets, frameIndex, blurry, translation)
  }

  /** The states after the first loop of `update`: the old records, and a fresh record for each new id. */
  ghost function Admitted(s0: map<int, BugData>, keys: set<int>): map<int, BugData>
  {
    map x | x in keys :: if x in s0 then s0[x] else NewBug()
  }

  /** Every record is consistent, or new and among the outputs `ids`. */
  ghost predicate Visitable(states: map<int, BugData>, ids: seq<int>)
  {
    forall id {:trigger ValidData(states[id])} :: id in states ==> ValidData(states[id]) || (states[id] == NewBug() && id in ids)
  }

  /** After the first loop every record is consistent, or new and among the outputs, so each can be visited. */
  lemma AdmittedValid(s0: map<int, BugData>, keys: set<int>, dets: seq<Detection>)
    requires AllValid(s0) && forall x :: x in keys ==> x in s0 || x in Ids(dets)
    ensures Visitable(Admitted(s0, keys), Ids(dets))
    ensures Ready(Admitted(s0, keys), Ids(dets))
  {
    var s1 := Admitted(s0, keys);
    forall id | id in s1 ensures id in Ids(dets) || s1[id].bboxList != [] {
      if id !in Ids(dets) {
        assert ValidData(s1[id]);
      }
    }
  }

  /** Every record of `states` visited once. */
  ghost function Visits(states: map<int, BugData>, dets: seq<Detection>, frameIndex: int, blurry: int,
                        translation: Option<Vec>): (vis: map<int, BugData>)
    requires Ready(states, Ids(dets))
    ensures VisitsOf(states, vis, dets, frameIndex, blurry, translation)
  {
    map id | id in states :: Visit(states[id], id, dets, frameIndex, blurry, translation)
  }

  /** Visiting such records keeps them all consistent. */
  lemma VisitsValid(states: map<int, BugData>, vis: map<int, BugData>, dets: seq<Detection>, frameIndex: int,
                    blurry: int, translation: Option<Vec>)
    requires Visitable(states, Ids(dets))
    requires VisitsOf(states, vis, dets, frameIndex, blurry, translation)
    ensures AllValid(vis)
  {
    forall id | id in vis ensures ValidData(vis[id]) {
      VisitValid(states[id], id, dets, frameIndex, blurry, translation);
    }
  }

  /**
   * The state of the second loop of `update`: the records of the first `i` ids of `o0` have
   * been visited (`vis` holds every record's state after its visit), `now` holds every
   * record's current state and `shown` lists the visited records whose id is in `seen`.
   */
  ghost predicate Visiting(states: map<int, BugData>, vis: map<int, BugData>, o0: seq<int>, i: int, seen: set<int>,
                           now: map<int, BugData>, shown: seq<AbstractBug>, bugs: map<int, AbstractBug>)
  {
    && 0 <= i <= |o0|
    && (forall j :: 0 <= j < |o0| ==> o0[j] in bugs && o0[j] in states && o0[j] in vis && o0[j] in now)
    && (forall j :: 0 <= j < |o0| ==> now[o0[j]] == if j < i then vis[o0[j]] else states[o0[j]])
    && Listed(shown, Restrict(o0[..i], seen), bugs)
  }

  /** One more record visited. */
  lemma VisitingStep(states: map<int, BugData>, vis: map<int, BugData>, o0: seq<int>, i: int, seen: set<int>,
                     now: map<int, BugData>, shown: seq<AbstractBug>, bugs: map<int, AbstractBug>, isShown: bool)
    requires Distinct(o0) && Visiting(states, vis, o0, i, seen, now, shown, bugs) && i < |o0|
    requires isShown <==> o0[i] in seen
    ensures var id := o0[i];
      Visiting(states, vis, o0, i + 1, seen, now[id := vis[id]], if isShown then shown + [bugs[id]] else shown, bugs)
  {
    var id := o0[i];
    assert o0[..i + 1][..i] == o0[..i];
    if isShown {
      ListedSnoc(shown, Restrict(o0[..i], seen), bugs, id);
    }
  }

  /** Before the loop no record has been visited. */
  lemma VisitingStart(states: map<int, BugData>, vis: map<int, BugData>, o0: seq<int>, seen: set<int>,
                      bugs: map<int, AbstractBug>)
    requires bugs.Keys == states.Keys == vis.Keys && forall id :: id in bugs <==> id in o0
    ensures Visiting(states, vis, o0, 0, seen, states, [], bugs)
  {
    forall j | 0 <= j < |o0| ensures o0[j] in bugs {
      var id := o0[j];
      assert id in o0;
    }
  }

  /** At the end of the loop every record has been visited. */
  lemma VisitedAll(states: map<int, BugData>, vis: map<int, BugData>, o0: seq<int>, seen: set<int>,
                   now: map<int, BugData>, shown: seq<AbstractBug>, bugs: map<int, AbstractBug>)
    requires Visiting(states, vis, o0, |o0|, seen, now, shown, bugs)
    requires now.Keys == vis.Keys && forall id :: id in vis ==> id in o0
    ensures now == vis && Listed(shown, Restrict(o0, seen), bugs)
  {
    assert o0[..|o0|] == o0;
    forall id | id in vis ensures now[id] == vis[id] {
      var j :| 0 <= j < |o0| && o0[j] == id;
    }
  }

  /** The ids whose record has run out of time. */
  function DeadKeys(states: map<int, BugData>): set<int>
  {
    set id | id in states && states[id].survivalTime <= 0
  }

  /** The ids whose record still has time. */
  function LiveKeys(states: map<int, BugData>): set<int>
  {
    set id | id in states && states[id].survivalTime > 0
  }

  /** `alive()` may be asked of a record: its countdown runs, or it has a detection to stop at. */
  predicate Askable(d: BugData)
  {
    d.survivalTime > 0 || TrimTrailingZeros(d.detectionSequence) != []
  }

  /** Every record of a consistent dictionary can be asked. */
  lemma AllAskable(states: map<int, BugData>)
    requires AllValid(states)
    ensures forall id :: id in states ==> Askable(states[id])
  {
    forall id | id in states ensures Askable(states[id]) {
      ValidAskable(states[id]);
    }
  }

  /** A consistent record can always be asked. */
  lemma ValidAskable(d: BugData)
    requires ValidData(d)
    ensures Askable(d)
  {
    assert d.detectionSequence[..1] == [1];
    CountOnesPrefix(d.detectionSequence, 1);
    TrimEndsInDetection(d.detectionSequence);
  }

  /** `bug.alive()` on one record of a dictionary; the other records are untouched. */
  method Ask(ghost bugs: map<int, AbstractBug>, ghost states: map<int, BugData>, id: int, bug: AbstractBug)
    returns (isAlive: bool)
    requires Injective(bugs) && HoldsIn(bugs, states) && id in bugs && bug == bugs[id] && Askable(states[id])
    modifies bug
    ensures isAlive <==> states[id].survivalTime > 0
    ensures HoldsIn(bugs, states[id := if isAlive then states[id] else Expired(states[id])])
  {
    isAlive := bug.Alive();
    forall other | other in bugs && other != id ensures bugs[other].Data() == old(bugs[other].Data()) {
      assert bugs[other] != bug;
    }
  }

  /**
   * The state of the clearing loop: the ids in `done` (the first `i` of `o0`) were asked
   * `alive()`; the expired ones are gone from `bugs` and listed in `cleared`, and `now` holds
   * every record's state.
   */
  ghost predicate Clearing(states: map<int, BugData>, b0: map<int, AbstractBug>, o0: seq<int>, i: int, done: set<int>,
                           now: map<int, BugData>, kept: seq<int>, cleared: seq<AbstractBug>, bugs: map<int, AbstractBug>)
  {
    && (forall id :: id in o0 ==> id in b0)
    && (forall id :: id in b0 ==> id in states && id in now)
    && 0 <= i <= |o0|
    && (forall j :: 0 <= j < |o0| ==> (o0[j] in done <==> j < i))
    && kept == Restrict(o0[..i], LiveKeys(states))
    && Listed(cleared, Restrict(o0[..i], DeadKeys(states)), b0)
    && (forall id :: id in bugs <==> id in b0 && (id !in done || states[id].survivalTime > 0))
    && (forall id :: id in bugs ==> bugs[id] == b0[id])
    && (forall id :: id in b0 ==>
          now[id] == if id in done && states[id].survivalTime <= 0 then Expired(states[id]) else states[id])
  }

  /** One more id asked: it stays, or leaves the dictionary for the cleared list. */
  lemma ClearingStep(states: map<int, BugData>, b0: map<int, AbstractBug>, o0: seq<int>, i: int, done: set<int>,
                     now: map<int, BugData>, kept: seq<int>, cleared: seq<AbstractBug>, bugs: map<int, AbstractBug>,
                     isAlive: bool)
    requires Distinct(o0)
    requires Clearing(states, b0, o0, i, done, now, kept, cleared, bugs) && i < |o0|
    requires isAlive <==> now[o0[i]].survivalTime > 0
    ensures var id := o0[i];
      Clearing(states, b0, o0, i + 1, done + {id}, now[id := if isAlive then now[id] else Expired(now[id])],
               if isAlive then kept + [id] else kept, if isAlive then cleared else cleared + [b0[id]],
               if isAlive then bugs else bugs - {id})
  {
    var id := o0[i];
    assert o0[..i + 1][..i] == o0[..i];
    assert id in DeadKeys(states) <==> !isAlive;
    assert id in LiveKeys(states) <==> isAlive;
    if !isAlive {
      ListedSnoc(cleared, Restrict(o0[..i], DeadKeys(states)), b0, id);
    }
    var bugs' := if isAlive then bugs else bugs - {id};
    forall x ensures x in bugs' <==> x in b0 && (x !in done + {id} || states[x].survivalTime > 0) {
      if x != id {
        assert x in bugs' <==> x in bugs;
      }
    }
  }

  /**
   * `bugs` and `order` are `b0` and `o0` after the first loop of `update` has run over `ids`:
   * the order is `AddIds(o0, ids)`, the old records are kept and every other record is new.
   */
  ghost predicate Grown(b0: map<int, AbstractBug>, o0: seq<int>, ids: seq<int>, bugs: map<int, AbstractBug>, order: seq<int>)
    reads bugs.Values
  {
    && order == AddIds(o0, ids)
    && (forall x :: x in bugs <==> x in order) && Injective(bugs)
    && (forall x :: x in b0 ==> x in bugs && bugs[x] == b0[x])
    && (forall x :: x in bugs && x !in b0 ==> bugs[x].Data() == NewBug())
  }

  /**
   * `bugs` in the order `order` extends `b0` in the order `o0` by the ids of `ids`: the order
   * is `AddIds(o0, ids)`, every old record is kept and every other key is one of `ids`.
   */
  ghost predicate Extends(b0: map<int, AbstractBug>, o0: seq<int>, ids: seq<int>, bugs: map<int, AbstractBug>, order: seq<int>)
  {
    && order == AddIds(o0, ids)
    && (forall x :: x in b0 ==> x in bugs && bugs[x] == b0[x])
    && (forall x :: x in bugs ==> x in b0 || x in ids)
  }

  /** The body of the first loop of `update`: a new record for `ids[i]` unless `bugs` already holds one. */
  method AdmitOne(ghost b0: map<int, AbstractBug>, ghost o0: seq<int>, ids: seq<int>, i: nat, frameIndex: int,
                  bugs: map<int, AbstractBug>, order: seq<int>)
    returns (bugs': map<int, AbstractBug>, order': seq<int>)
    requires i < |ids| && Grown(b0, o0, ids[..i], bugs, order)
    ensures Grown(b0, o0, ids[..i + 1], bugs', order')
    ensures forall x :: x in bugs ==> x in bugs' && bugs'[x] == bugs[x]
    ensures forall x :: x in bugs' && x !in bugs ==> fresh(bugs'[x])
    ensures forall b :: b in bugs'.Values ==> b in bugs.Values || fresh(b)
  {
    AddIdsStep(o0, ids, i);
    var id := ids[i];
    bugs', order' := bugs, order;
    if id !in bugs {
      var bug := new AbstractBug(frameIndex, id);
      bugs', order' := bugs[id := bug], order + [id];
    }
  }

  /** After the first loop the dictionary is consistent, and holds the old states and new records. */
  lemma GrownAll(b0: map<int, AbstractBug>, o0: seq<int>, ids: seq<int>, bugs: map<int, AbstractBug>, order: seq<int>,
                 s0: map<int, BugData>)
    requires Distinct(o0) && (forall x :: x in b0 <==> x in o0) && HoldsIn(b0, s0)
    requires Grown(b0, o0, ids, bugs, order)
    ensures Distinct(order) && Extends(b0, o0, ids, bugs, order)
    ensures HoldsIn(bugs, Admitted(s0, bugs.Keys))
  {
    AddIdsSpec(o0, ids);
  }

  /** The first loop of `update` on the dictionary `b0` in the order `o0`, whose records are in the states `s0`. */
  method AdmitIds(b0: map<int, AbstractBug>, o0: seq<int>, ids: seq<int>, frameIndex: int, ghost s0: map<int, BugData>)
    returns (bugs: map<int, AbstractBug>, order: seq<int>)
    requires Distinct(o0) && (forall x :: x in b0 <==> x in o0) && Injective(b0) && HoldsIn(b0, s0)
    ensures Distinct(order) && (forall x :: x in bugs <==> x in order) && Injective(bugs)
    ensures Extends(b0, o0, ids, bugs, order)
    ensures forall x :: x in bugs && x !in b0 ==> fresh(bugs[x])
    ensures forall b :: b in bugs.Values ==> b in b0.Values || fresh(b)
    ensures HoldsIn(bugs, Admitted(s0, bugs.Keys))
  {
    bugs, order := b0, o0;
    var i := 0;
    while i < |ids|
      invariant 0 <= i <= |ids| && Grown(b0, o0, ids[..i], bugs, order)
      invariant forall x :: x in bugs && x !in b0 ==> fresh(bugs[x])
      invariant forall b :: b in bugs.Values ==> b in b0.Values || fresh(b)
    {
      bugs, order := AdmitOne(b0, o0, ids, i, frameIndex, bugs, order);
      i := i + 1;
    }
    assert ids[..i] == ids;
    GrownAll(b0, o0, ids, bugs, order, s0);
  }

  /** The states after `clear()`: the records that are no longer alive have their trailing misses cut. */
  ghost function Swept(states: map<int, BugData>): map<int, BugData>
  {
    map id | id in states :: if states[id].survivalTime > 0 then states[id] else Expired(states[id])
  }

  /** Every id of `o0` is in `done` when every position is. */
  lemma AllDone(o0: seq<int>, done: set<int>)
    requires forall j :: 0 <= j < |o0| ==> o0[j] in done
    ensures forall x :: x in o0 ==> x in done
  {
    forall x | x in o0 ensures x in done {
      var j :| 0 <= j < |o0| && o0[j] == x;
    }
  }

  /** When the loop of `clear()` is over, the survivors and the cleared records are those of the whole order. */
  lemma ClearedIds(states: map<int, BugData>, b0: map<int, AbstractBug>, o0: seq<int>, done: set<int>,
                   now: map<int, BugData>, kept: seq<int>, cleared: seq<AbstractBug>, bugs: map<int, AbstractBug>)
    requires Clearing(states, b0, o0, |o0|, done, now, kept, cleared, bugs) && forall x :: x in o0 ==> x in done
    requires (forall id :: id in b0 <==> id in o0) && Injective(b0)
    ensures kept == Restrict(o0, LiveKeys(states))
    ensures Listed(cleared, Restrict(o0, DeadKeys(states)), b0)
    ensures forall id :: id in bugs <==> id in b0 && states[id].survivalTime > 0
    ensures forall id :: id in bugs ==> bugs[id] == b0[id]
    ensures Injective(bugs)
  {
    assert o0[..|o0|] == o0;
  }

  /** When the loop of `clear()` is over, every record is in its swept state. */
  lemma ClearedStates(states: map<int, BugData>, b0: map<int, AbstractBug>, o0: seq<int>, done: set<int>,
                      now: map<int, BugData>, kept: seq<int>, cleared: seq<AbstractBug>, bugs: map<int, AbstractBug>)
    requires Clearing(states, b0, o0, |o0|, done, now, kept, cleared, bugs) && forall x :: x in o0 ==> x in done
    requires HoldsIn(b0, now) && (forall id :: id in b0 <==> id in o0) && states.Keys == b0.Keys
    ensures HoldsIn(b0, Swept(states))
    ensures forall id :: id in bugs ==> id in states && bugs[id].Data() == states[id]
  {
    forall id | id in b0 ensures b0[id].Data() == Swept(states)[id] {
      assert id in done;
    }
  }

  /** One pass of the loop in `clear()`: asks the next record whether it is alive, and pops it if not. */
  method Expire(ghost states: map<int, BugData>, b0: map<int, AbstractBug>, o0: seq<int>, i: int,
                ghost done: set<int>, ghost now: map<int, BugData>, bugs: map<int, AbstractBug>, kept: seq<int>,
                cleared: seq<AbstractBug>)
    returns (ghost done': set<int>, ghost now': map<int, BugData>, bugs': map<int, AbstractBug>, kept': seq<int>,
             cleared': seq<AbstractBug>)
    requires Distinct(o0) && forall id :: id in states ==> Askable(states[id])
    requires Injective(b0) && HoldsIn(b0, now)
    requires Clearing(states, b0, o0, i, done, now, kept, cleared, bugs) && i < |o0|
    modifies b0[o0[i]]
    ensures HoldsIn(b0, now') && Clearing(states, b0, o0, i + 1, done', now', kept', cleared', bugs')
  {
    var id := o0[i];
    var bug := bugs[id];
    var isAlive := Ask(b0, now, id, bug);
    ClearingStep(states, b0, o0, i, done, now, kept, cleared, bugs, isAlive);
    now' := now[id := if isAlive then now[id] else Expired(now[id])];
    done' := done + {id};
    if isAlive {
      bugs', kept', cleared' := bugs, kept + [id], cleared;
    } else {
      bugs', kept', cleared' := bugs - {id}, kept, cleared + [bug];
    }
  }

  /**
   * The loop of `clear()` over the dictionary `b0` in the order `o0`: every record is asked
   * `alive()`; the survivors are returned with their ids in order, and the others in order.
   */
  method ExpireAll(b0: map<int, AbstractBug>, o0: seq<int>, ghost states: map<int, BugData>)
    returns (bugs: map<int, AbstractBug>, kept: seq<int>, cleared: seq<AbstractBug>)
    requires Distinct(o0) && (forall id :: id in b0 <==> id in o0) && Injective(b0)
    requires HoldsIn(b0, states) && AllValidIn(b0)
    modifies b0.Values
    ensures kept == Restrict(o0, LiveKeys(states))
    ensures Listed(cleared, Restrict(o0, DeadKeys(states)), b0)
    ensures forall id :: id in bugs <==> id in b0 && states[id].survivalTime > 0
    ensures forall id :: id in bugs ==> bugs[id] == b0[id]
    ensures HoldsIn(b0, Swept(states))
    ensures Injective(bugs) && AllValidIn(bugs)
  {
    ghost var done: set<int> := {};
    ghost var now := states;
    HoldsValid(b0, states);
    AllAskable(states);
    assert states.Keys == b0.Keys;
    bugs, kept, cleared := b0, [], [];
    var i := 0;
    while i < |o0|
      invariant HoldsIn(b0, now) && Clearing(states, b0, o0, i, done, now, kept, cleared, bugs)
    {
      done, now, bugs, kept, cleared := Expire(states, b0, o0, i, done, now, bugs, kept, cleared);
      i := i + 1;
    }
    AllDone(o0, done);
    ClearedIds(states, b0, o0, done, now, kept, cleared, bugs);
    ClearedStates(states, b0, o0, done, now, kept, cleared, bugs);
    ValidSubset(bugs, states);
  }

  /** The second loop of `update` on one record `bug` with id `id`: it ends in the state `v`. */
  method VisitRecord(bug: AbstractBug, id: int, ids: seq<int>, dets: seq<Detection>, frameIndex: int, blurry: int,
                     translation: Option<Vec>, ghost v: BugData)
    returns (shown: bool)
    requires ids == Ids(dets) && (id in ids || bug.bboxList != [])
    requires v == Visit(bug.Data(), id, dets, frameIndex, blurry, translation)
    modifies bug
    ensures shown <==> id in ids
    ensures bug.Data() == v
  {
    var k := FirstIndex(id, ids);
    if k.Some? {
      var det := dets[k.value];
      if bug.IsUpdateScreenshot() {
        bug.UpdateScreenshot(Shot(frameIndex, det.box));
      }
      bug.Update(Some(det.box), ClsToEnglishName(det.clsCode), Some(det.bugNums), Some(blurry), translation);
      shown := true;
    } else {
      bug.Update(None, None, None, None, translation);
      shown := false;
    }
  }

  /** The record manager (big_microfauna/abstract_bug_manager.py, class AbstractBugManager). */
  class AbstractBugManager {
    var bugs: map<int, AbstractBug>
    var order: seq<int>
    var displayList: seq<AbstractBug>

    /** `order` is the dictionary order of the keys; distinct ids hold distinct records. */
    ghost predicate Valid()
      reads this`bugs, this`order
    {
      Distinct(order) && (forall id :: id in bugs <==> id in order) && Injective(bugs)
    }

    /** The state of every record, by id. */
    ghost function States(): map<int, BugData>
      reads this`bugs, bugs.Values
    {
      map id | id in bugs :: bugs[id].Data()
    }

    /** Every record is in its state of `States()`. */
    lemma StatesHold()
      ensures HoldsIn(bugs, States())
    {
    }

    constructor ()
      ensures Valid() && bugs == map[] && order == [] && displayList == []
    {
      bugs, order, displayList := map[], [], [];
    }

    /**
     * The first loop of `update`: a record, new at `frameIndex`, for every output id not yet
     * known, appended to the dictionary order in output order; known records are kept.
     */
    method AdmitAll(ids: seq<int>, frameIndex: int, ghost s0: map<int, BugData>)
      requires Valid() && HoldsIn(bugs, s0)
      modifies this`bugs, this`order
      ensures Valid() && Extends(old(bugs), old(order), ids, bugs, order)
      ensures forall x :: x in bugs && x !in old(bugs) ==> fresh(bugs[x])
      ensures forall b :: b in bugs.Values ==> b in old(bugs).Values || fresh(b)
      ensures HoldsIn(bugs, Admitted(s0, bugs.Keys))
    {
      var b, o := AdmitIds(bugs, order, ids, frameIndex, s0);
      bugs, order := b, o;
    }

    /**
     * The second loop of `update` on the record of `id`, whose state is `states[id]`: it ends
     * in the state `vis[id]`. Returns whether the id was among the outputs.
     */
    method VisitOne(id: int, ids: seq<int>, dets: seq<Detection>, frameIndex: int, blurry: int, translation: Option<Vec>,
                    ghost states: map<int, BugData>, ghost vis: map<int, BugData>, ghost now: map<int, BugData>)
      returns (shown: bool)
      requires ids == Ids(dets) && VisitsOf(states, vis, dets, frameIndex, blurry, translation)
      requires Injective(bugs) && HoldsIn(bugs, now) && id in bugs && id in vis && now[id] == states[id]
      modifies bugs[id]
      ensures shown <==> id in ids
      ensures HoldsIn(bugs, now[id := vis[id]])
    {
      var bug := bugs[id];
      shown := VisitRecord(bug, id, ids, dets, frameIndex, blurry, translation, vis[id]);
      forall other | other in bugs && other != id ensures bugs[other].Data() == old(bugs[other].Data()) {
        assert bugs[other] != bug;
      }
    }

    /** One pass of the second loop of `update`. */
    method VisitStep(ids: seq<int>, dets: seq<Detection>, frameIndex: int, blurry: int, translation: Option<Vec>,
                     ghost states: map<int, BugData>, ghost vis: map<int, BugData>, i: int,
                     ghost now: map<int, BugData>, shown: seq<AbstractBug>)
      returns (ghost now': map<int, BugData>, shown': seq<AbstractBug>)
      requires ids == Ids(dets) && VisitsOf(states, vis, dets, frameIndex, blurry, translation)
      requires Distinct(order) && Injective(bugs) && HoldsIn(bugs, now)
      requires Visiting(states, vis, order, i, IdSet(ids), now, shown, bugs) && i < |order|
      modifies bugs[order[i]]
      ensures HoldsIn(bugs, now') && Visiting(states, vis, order, i + 1, IdSet(ids), now', shown', bugs)
    {
      var id := order[i];
      var seen := VisitOne(id, ids, dets, frameIndex, blurry, translation, states, vis, now);
      VisitingStep(states, vis, order, i, IdSet(ids), now, shown, bugs, seen);
      now' := now[id := vis[id]];
      shown' := if seen then shown + [bugs[id]] else shown;
    }

    /**
     * The second loop of `update`: every record visited once, in dictionary order; returns the
     * records whose id was among the outputs, in that order.
     */
    method VisitAll(ids: seq<int>, dets: seq<Detection>, frameIndex: int, blurry: int, translation: Option<Vec>,
                    ghost states: map<int, BugData>, ghost vis: map<int, BugData>)
      returns (shown: seq<AbstractBug>)
      requires ids == Ids(dets) && HoldsIn(bugs, states) && VisitsOf(states, vis, dets, frameIndex, blurry, translation)
      requires Distinct(order) && Injective(bugs) && forall id :: id in bugs <==> id in order
      modifies bugs.Values
      ensures Listed(shown, Restrict(order, IdSet(ids)), bugs)
      ensures HoldsIn(bugs, vis)
    {
      ghost var now := states;
      VisitingStart(states, vis, order, IdSet(ids), bugs);
      shown := [];
      var i := 0;
      while i < |order|
        invariant HoldsIn(bugs, now) && Visiting(states, vis, order, i, IdSet(ids), now, shown, bugs)
      {
        now, shown := VisitStep(ids, dets, frameIndex, blurry, translation, states, vis, i, now, shown);
        i := i + 1;
      }
      VisitedAll(states, vis, order, IdSet(ids), now, shown, bugs);
    }

    /** Sets the display list to `shown`; no record changes, so records in consistent states stay consistent. */
    method Show(shown: seq<AbstractBug>, ghost vis: map<int, BugData>)
      requires HoldsIn(bugs, vis) && AllValid(vis)
      modifies this`displayList
      ensures displayList == shown && HoldsIn(bugs, vis) && AllValidIn(bugs)
    {
      HoldsValid(bugs, vis);
      displayList := shown;
    }

    /**
     * The second loop of `update` and the display list, on records in the states `s1` left by
     * the first loop: every record visited once, and the records whose id was among the
     * outputs shown, in dictionary order.
     */
    method Refresh(ids: seq<int>, dets: seq<Detection>, frameIndex: int, blurry: int, translation: Option<Vec>,
                   ghost s1: map<int, BugData>)
      requires ids == Ids(dets) && Valid() && HoldsIn(bugs, s1) && Ready(s1, ids)
      requires Visitable(s1, ids)
      modifies this`displayList, bugs.Values
      ensures HoldsIn(bugs, Visits(s1, dets, frameIndex, blurry, translation)) && AllValidIn(bugs)
      ensures Listed(displayList, Restrict(order, IdSet(ids)), bugs)
    {
      ghost var vis := Visits(s1, dets, frameIndex, blurry, translation);
      VisitsValid(s1, vis, dets, frameIndex, blurry, translation);
      var shown := VisitAll(ids, dets, frameIndex, blurry, translation, s1, vis);
      Show(shown, vis);
    }

    /** `update` on records whose states on entry are `s0`. */
    method UpdateFrom(frameIndex: int, dets: seq<Detection>, blurry: int, translation: Option<Vec>,
                      ghost s0: map<int, BugData>)
      requires Valid() && AllValidIn(bugs) && HoldsIn(bugs, s0)
      modifies this, bugs.Values
      ensures Valid() && AllValidIn(bugs)
      ensures Extends(old(bugs), old(order), Ids(dets), bugs, order)
      ensures forall x :: x in bugs && x !in old(bugs) ==> fresh(bugs[x])
      ensures Ready(Admitted(s0, bugs.Keys), Ids(dets))
      ensures HoldsIn(bugs, Visits(Admitted(s0, bugs.Keys), dets, frameIndex, blurry, translation))
      ensures Listed(displayList, Restrict(order, IdSet(Ids(dets))), bugs)
    {
      HoldsValid(bugs, s0);
      var ids := Ids(dets);
      AdmitAll(ids, frameIndex, s0);
      ghost var s1 := Admitted(s0, bugs.Keys);
      AdmittedValid(s0, bugs.Keys, dets);
      Refresh(ids, dets, frameIndex, blurry, translation, s1);
      assert s1 == Admitted(s0, bugs.Keys);
    }

    /**
     * `update(frame_index, frame, outputs, others, blurry, translation)`: creates a record for
     * every new id, visits every record once (see `Visit`) and shows exactly the records whose
     * id was among the outputs, in dictionary order. Old records are never replaced; every
     * record stays consistent.
     */
    method Update(frameIndex: int, dets: seq<Detection>, blurry: int, translation: Option<Vec>)
      requires Valid() && AllValidIn(bugs)
      modifies this, bugs.Values
      ensures Valid() && AllValidIn(bugs)
      ensures Extends(old(bugs), old(order), Ids(dets), bugs, order)
      ensures forall x :: x in bugs && x !in old(bugs) ==> fresh(bugs[x])
      ensures Ready(Admitted(old(States()), bugs.Keys), Ids(dets))
      ensures HoldsIn(bugs, Visits(Admitted(old(States()), bugs.Keys), dets, frameIndex, blurry, translation))
      ensures Listed(displayList, Restrict(order, IdSet(Ids(dets))), bugs)
    {
      StatesHold();
      UpdateFrom(frameIndex, dets, blurry, translation, States());
    }

    /** Replaces the dictionary by `bugs'` in the order `order'`; no record changes. */
    method Install(bugs': map<int, AbstractBug>, order': seq<int>, ghost b0: map<int, AbstractBug>,
                   ghost states: map<int, BugData>)
      requires Distinct(order') && (forall id :: id in bugs' <==> id in order') && Injective(bugs')
      requires AllValidIn(bugs') && HoldsIn(b0, states)
      modifies this`bugs, this`order
      ensures bugs == bugs' && order == order' && Valid() && AllValidIn(bugs) && HoldsIn(b0, states)
    {
      bugs, order := bugs', order';
    }

    /** `clear()` on records whose states on entry are `states`. */
    method ClearFrom(ghost states: map<int, BugData>) returns (cleared: seq<AbstractBug>)
      requires Valid() && AllValidIn(bugs) && HoldsIn(bugs, states)
      modifies this`bugs, this`order, bugs.Values
      ensures Valid() && AllValidIn(bugs)
      ensures Listed(cleared, Restrict(old(order), DeadKeys(states)), old(bugs))
      ensures order == Restrict(old(order), LiveKeys(states))
      ensures forall id :: id in bugs <==> id in old(bugs) && states[id].survivalTime > 0
      ensures forall id :: id in bugs ==> bugs[id] == old(bugs)[id]
      ensures HoldsIn(old(bugs), Swept(states))
    {
      var bs, kept;
      bs, kept, cleared := ExpireAll(bugs, order, states);
      RestrictDistinct(order, LiveKeys(states));
      Install(bs, kept, old(bugs), Swept(states));
    }

    /**
     * `clear()`: removes and returns the records that are no longer alive, in dictionary
     * order; those have their trailing misses cut. The survivors are untouched and consistent,
     * and keep their order.
     */
    method Clear() returns (cleared: seq<AbstractBug>)
      requires Valid() && AllValidIn(bugs)
      modifies this`bugs, this`order, bugs.Values
      ensures Valid() && AllValidIn(bugs)
      ensures Listed(cleared, Restrict(old(order), DeadKeys(old(States()))), old(bugs))
      ensures order == Restrict(old(order), LiveKeys(old(States())))
      ensures forall id :: id in bugs <==> id in old(bugs) && old(States())[id].survivalTime > 0
      ensures forall id :: id in bugs ==> bugs[id] == old(bugs)[id]
      ensures HoldsIn(old(bugs), Swept(old(States())))
    {
      StatesHold();
      cleared := ClearFrom(States());
    }

    /** `display_tracks()`: copies of the records shown this frame. */
    function DisplayTracks(): (r: seq<BugData>)
      reads this, set k | 0 <= k < |displayList| :: displayList[k]
      ensures |r| == |displayList| && forall k :: 0 <= k < |r| ==> r[k] == displayList[k].Data()
    {
      var ts := displayList;
      seq(|ts|, k requires 0 <= k < |ts| reads if 0 <= k < |ts| then {ts[k]} else {} => ts[k].Data())
    }
  }
}
