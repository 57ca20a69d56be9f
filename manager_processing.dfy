/**
 * The merge step of manager_processing.py: the results of the YOLO worker (large organisms)
 * and of the frame-difference worker (small organisms) wait in two local lists ordered by
 * frame index; each step looks at both heads, takes the earlier frame (both on a tie) and
 * decides which side's bookkeeping runs.
 */
module ManagerProcessing {
  import opened Common
  import BugManager
  import BugRecord

  /** A YOLO result `(frame_index, frame, outputs, others, blurry, blurry_text)`; the frame, the extra boxes and the text are not modelled. */
  datatype YoloResult = YoloResult(frameIndex: int, outputs: seq<BugManager.Detection>, blurry: int)

  /**
   * A frame-difference result `(frame_index, frame, clear_list, translation, display_tracks,
   * blurry, blurry_text)`; the frame, the drawn tracks and the text are not modelled.
   */
  datatype DifferResult = DifferResult(frameIndex: int, clearList: seq<BugRecord.Item>, translation: Option<Vec>, blurry: int)

  /** The arguments of the large manager's `update`. */
  datatype BigCall = BigCall(frameIndex: int, outputs: seq<BugManager.Detection>, blurry: int, translation: Option<Vec>)

  /**
   * What one step hands on: the large manager's `update` (followed by its `clear` and the
   * allocation of what that clears), and the small clear list to allocate.
   */
  datatype Dispatch = Dispatch(big: Option<BigCall>, small: Option<seq<BugRecord.Item>>)

  /** The two lists after a step, and what the step handed on (None: nothing was consumed). */
  datatype Merged = Merged(yolo: seq<YoloResult>, frames: seq<DifferResult>, dispatch: Option<Dispatch>)

  /**
   * The body of the `try` in `start`. With both lists non-empty the head with the smaller
   * frame index is popped, or both on a tie; the large side runs when the YOLO index is not
   * larger, the small side when the difference index is not larger. The translation is the
   * popped difference result's, and `blurry` is the last one unpacked: the difference
   * result's whenever that was popped.
   */
  function MergeStep(yolo: seq<YoloResult>, frames: seq<DifferResult>): (r: Merged)
    ensures r.dispatch.Some? ==> |r.yolo| + |r.frames| < |yolo| + |frames|
    ensures r.dispatch.None? ==> r.yolo == yolo && r.frames == frames
  {
    if |yolo| == 0 || |frames| == 0 then Merged(yolo, frames, None)
    else
      var y, f := yolo[0], frames[0];
      var yi, fi := y.frameIndex, f.frameIndex;
      var translation := if yi < fi then None else f.translation;
      var blurry := if yi < fi then y.blurry else f.blurry;
      Merged(if yi <= fi then yolo[1..] else yolo,
             if fi <= yi then frames[1..] else frames,
             Some(Dispatch(if yi <= fi then Some(BigCall(yi, y.outputs, blurry, translation)) else None,
                           if fi <= yi then Some(f.clearList) else None)))
  }

  /** Nothing is consumed and nothing runs unless both lists hold a result. */
  lemma NothingUnlessBoth(yolo: seq<YoloResult>, frames: seq<DifferResult>)
    ensures MergeStep(yolo, frames).dispatch.None? <==> yolo == [] || frames == []
  {
  }

  /**
   * With both lists non-empty, the head with the strictly smaller frame index is popped and
   * the other list is left alone; on equal indices both heads are popped. Either way at least
   * one side runs.
   */
  lemma PopRule(yolo: seq<YoloResult>, frames: seq<DifferResult>)
    requires yolo != [] && frames != []
    ensures var r := MergeStep(yolo, frames);
      && (r.yolo == yolo[1..] <==> yolo[0].frameIndex <= frames[0].frameIndex)
      && (r.yolo == yolo <==> yolo[0].frameIndex > frames[0].frameIndex)
      && (r.frames == frames[1..] <==> frames[0].frameIndex <= yolo[0].frameIndex)
      && (r.frames == frames <==> frames[0].frameIndex > yolo[0].frameIndex)
      && (r.dispatch.value.big.Some? || r.dispatch.value.small.Some?)
  {
    assert |yolo[1..]| < |yolo| && |frames[1..]| < |frames|;
  }

  /**
   * The large side runs, on the YOLO head, iff its index is not larger; the small side runs,
   * on the difference head's clear list, iff its index is not larger.
   */
  lemma DispatchRule(yolo: seq<YoloResult>, frames: seq<DifferResult>)
    requires yolo != [] && frames != []
    ensures var d := MergeStep(yolo, frames).dispatch.value;
      && (d.big.Some? <==> yolo[0].frameIndex <= frames[0].frameIndex)
      && (d.small.Some? <==> frames[0].frameIndex <= yolo[0].frameIndex)
      && (d.big.Some? ==> d.big.value.frameIndex == yolo[0].frameIndex && d.big.value.outputs == yolo[0].outputs)
      && (d.small.Some? ==> d.small.value == frames[0].clearList)
  {
  }

  /**
   * The large manager gets no translation unless a difference result was popped in the same
   * step, which happens only on a tie, and then gets that result's translation and its
   * `blurry` in place of the YOLO result's.
   */
  lemma TranslationRule(yolo: seq<YoloResult>, frames: seq<DifferResult>)
    requires yolo != [] && frames != []
    ensures var d := MergeStep(yolo, frames).dispatch.value;
      d.big.Some? ==>
        && (yolo[0].frameIndex < frames[0].frameIndex ==> d.big.value.translation == None && d.big.value.blurry == yolo[0].blurry)
        && (yolo[0].frameIndex == frames[0].frameIndex ==>
              d.big.value.translation == frames[0].translation && d.big.value.blurry == frames[0].blurry)
  {
  }

  /** The steps taken until a list runs dry, and what is left in the two lists then. */
  function Drained(yolo: seq<YoloResult>, frames: seq<DifferResult>): (r: (seq<Dispatch>, seq<YoloResult>, seq<DifferResult>))
    ensures r.1 == [] || r.2 == []
    decreases |yolo| + |frames|
  {
    var m := MergeStep(yolo, frames);
    if m.dispatch.None? then
      NothingUnlessBoth(yolo, frames);
      ([], yolo, frames)
    else
      var rest := Drained(m.yolo, m.frames);
      ([m.dispatch.value] + rest.0, rest.1, rest.2)
  }

  /** What is left over is the end of its list, untouched: it is never processed. */
  lemma {:induction false} LeftoverIsSuffix(yolo: seq<YoloResult>, frames: seq<DifferResult>)
    ensures var r := Drained(yolo, frames);
      && |r.1| <= |yolo| && r.1 == yolo[|yolo| - |r.1|..]
      && |r.2| <= |frames| && r.2 == frames[|frames| - |r.2|..]
    decreases |yolo| + |frames|
  {
    var m := MergeStep(yolo, frames);
    if m.dispatch.Some? {
      LeftoverIsSuffix(m.yolo, m.frames);
      var r := Drained(m.yolo, m.frames);
      assert m.yolo == yolo[1..] || m.yolo == yolo;
      assert m.frames == frames[1..] || m.frames == frames;
      assert r.1 == m.yolo[|m.yolo| - |r.1|..];
      assert r.2 == m.frames[|m.frames| - |r.2|..];
    }
  }

  function YoloAt(i: int): YoloResult
  {
    YoloResult(i, [], 0)
  }

  function DifferAt(i: int): DifferResult
  {
    DifferResult(i, [], None, 0)
  }

  /** Frames 1 to 5 from YOLO and 1 to 4 from the difference worker: four steps, and frame 5 is never processed. */
  lemma DrainExample()
    ensures var r := Drained([YoloAt(1), YoloAt(2), YoloAt(3), YoloAt(4), YoloAt(5)],
                             [DifferAt(1), DifferAt(2), DifferAt(3), DifferAt(4)]);
      |r.0| == 4 && r.1 == [YoloAt(5)] && r.2 == []
  {
    var ys := [YoloAt(1), YoloAt(2), YoloAt(3), YoloAt(4), YoloAt(5)];
    var fs := [DifferAt(1), DifferAt(2), DifferAt(3), DifferAt(4)];
    assert MergeStep(ys, fs).yolo == ys[1..] && MergeStep(ys, fs).frames == fs[1..];
    assert MergeStep(ys[1..], fs[1..]).yolo == ys[2..] && MergeStep(ys[1..], fs[1..]).frames == fs[2..];
    assert MergeStep(ys[2..], fs[2..]).yolo == ys[3..] && MergeStep(ys[2..], fs[2..]).frames == fs[3..];
    assert MergeStep(ys[3..], fs[3..]).yolo == ys[4..] && MergeStep(ys[3..], fs[3..]).frames == [];
  }

  /** The two local lists of the manager process. */
  class Merger {
    var yoloList: seq<YoloResult>
    var frameList: seq<DifferResult>

    constructor ()
      ensures yoloList == [] && frameList == []
    {
      yoloList := [];
      frameList := [];
    }

    /** `_get_data`: whatever the two queues deliver is appended to the lists. */
    method Receive(ys: seq<YoloResult>, fs: seq<DifferResult>)
      modifies this
      ensures yoloList == old(yoloList) + ys && frameList == old(frameList) + fs
    {
      yoloList := yoloList + ys;
      frameList := frameList + fs;
    }

    /** One pass of the loop body: pop the earlier head (both on a tie) and say what runs. */
    method Step() returns (d: Option<Dispatch>)
      modifies this
      ensures Merged(yoloList, frameList, d) == MergeStep(old(yoloList), old(frameList))
    {
      if |yoloList| > 0 && |frameList| > 0 {
        var yi, fi := yoloList[0].frameIndex, frameList[0].frameIndex;
        var translation: Option<Vec> := None;
        var y: YoloResult := yoloList[0];
        var f: DifferResult := frameList[0];
        var blurry := y.blurry;
        if yi < fi {
          yoloList := yoloList[1..];
        } else if yi > fi {
          frameList := frameList[1..];
          translation, blurry := f.translation, f.blurry;
        } else {
          yoloList := yoloList[1..];
          frameList := frameList[1..];
          translation, blurry := f.translation, f.blurry;
        }
        var big: Option<BigCall> := None;
        var small: Option<seq<BugRecord.Item>> := None;
        if yi <= fi {
          big := Some(BigCall(yi, y.outputs, blurry, translation));
        }
        if fi <= yi {
          small := Some(f.clearList);
        }
        d := Some(Dispatch(big, small));
      } else {
        d := None;
      }
    }

    /**
     * The loop once the detectors have finished (`frame_detect_sign` set, nothing more
     * arrives): steps run until a list is empty, and the loop ends.
     */
    method Drain() returns (dispatched: seq<Dispatch>)
      modifies this
      ensures (dispatched, yoloList, frameList) == Drained(old(yoloList), old(frameList))
    {
      ghost var y0, f0 := yoloList, frameList;
      dispatched := [];
      assert dispatched + Drained(y0, f0).0 == Drained(y0, f0).0;
      while true
        invariant Drained(y0, f0).0 == dispatched + Drained(yoloList, frameList).0
        invariant Drained(y0, f0).1 == Drained(yoloList, frameList).1 && Drained(y0, f0).2 == Drained(yoloList, frameList).2
        decreases |yoloList| + |frameList|
      {
        ghost var yb, fb := yoloList, frameList;
        var d := Step();
        if d.None? {
          assert dispatched + Drained(yb, fb).0 == dispatched;
          break;
        }
        assert Drained(yb, fb).0 == [d.value] + Drained(yoloList, frameList).0;
        assert dispatched + Drained(yb, fb).0 == (dispatched + [d.value]) + Drained(yoloList, frameList).0;
        dispatched := dispatched + [d.value];
      }
    }
  }
}
