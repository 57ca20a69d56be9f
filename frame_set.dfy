/**
 * The choice of the frames to analyse (tools/frame_set.py): a window fixed by hand from a
 * start, an end and a frame count, or chosen automatically in the middle of the video.
 */
module FrameSet {

  /** What `frame_set` returns: a two-element window `[first, last]`, the video name, or `[]`. */
  datatype Selection = Window(first: int, last: int) | VideoName(name: string) | NoWindow

  /** The frames analysed when the window is chosen automatically. */
  const AutoLength := 20000

  /**
   * `frame_set(methods, manual_option, start_index, end_index, detect_index, total_index,
   * name)`. The ordering check of the manual method only reports; it never changes the result.
   */
  function SelectFrames(methods: string, option: string, start: int, end: int, detect: int, total: int,
                        name: string): (r: Selection)
    ensures methods != "manual" && methods != "auto" <==> r == NoWindow
    ensures r.VideoName? ==> r.name == name
    ensures r.Window? && methods == "manual" && option != "end_detect" ==> r.first == start
    ensures r.Window? && methods == "manual" && option != "start_detect" ==> r.last == end
    ensures r.Window? && methods == "auto" ==> r.last - r.first == AutoLength - 1
  {
    if methods == "manual" then
      if option == "start_detect" then Window(start, start + detect)
      else if option == "end_detect" then Window(end - detect, end)
      else if option == "start_end" then Window(start, end)
      else VideoName(name)
    else if methods == "auto" then
      if 20000 <= total <= 30000 then
        var a := (total - 20000) / 2;
        Window(a, a + 19999)
      else VideoName(name)
    else NoWindow
  }

  /** By hand, the window spans `detect` frames after the start or before the end, or runs from start to end. */
  lemma ManualWindows(option: string, start: int, end: int, detect: int, total: int, name: string)
    ensures SelectFrames("manual", option, start, end, detect, total, name).Window? <==>
            option == "start_detect" || option == "end_detect" || option == "start_end"
    ensures option == "start_detect" ==> SelectFrames("manual", option, start, end, detect, total, name).last == start + detect
    ensures option == "end_detect" ==> SelectFrames("manual", option, start, end, detect, total, name).first == end - detect
    ensures option == "start_end" ==> SelectFrames("manual", option, start, end, detect, total, name) == Window(start, end)
  {
  }

  /**
   * Automatically, a video of 20000 to 30000 frames gets a window of 20000 frames inside
   * `[0, total - 1]`, centred up to one frame; any other length gets the video name.
   */
  lemma AutoWindow(option: string, start: int, end: int, detect: int, total: int, name: string)
    ensures SelectFrames("auto", option, start, end, detect, total, name).Window? <==> 20000 <= total <= 30000
    ensures !(20000 <= total <= 30000) ==> SelectFrames("auto", option, start, end, detect, total, name) == VideoName(name)
    ensures 20000 <= total <= 30000 ==>
      var w := SelectFrames("auto", option, start, end, detect, total, name);
      && 0 <= w.first && w.last <= total - 1
      && w.last - w.first + 1 == AutoLength
      && 0 <= (total - 1 - w.last) - w.first <= 1
  {
  }
}
